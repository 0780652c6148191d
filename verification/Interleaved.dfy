/** Any number of callers against the fake server (client.go, kasapitest/server.go): in every interleaving
    every Exec returns what the handler answers to it, and the handler's calls for one Exec come in one
    piece. */
module Interleaved {
  import opened Text
  import opened Soap
  import opened Caller
  import opened Turns
  import opened FakeServer
  import opened EndToEnd
  import Effects
  import Projection
  import Sessions

  /** What a caller meets: answers arrive as they were given, the PIN is given when it is asked for, and
      nothing fails and no context ends. Waiting is allowed. */
  predicate Allowed(site: Site, m: Member, input: Input) {
    || input.Go?
    || (m.me.pc.AskPin? && input == Pin(site.pin))
    || (Turns.InFlight(m.me.pc) && input.Arrived? && m.served.Served? && m.served.reply == input.reply)
  }

  /** The server gives the fake server's answers. */
  predicate FaithfulTick(site: Site, s: State, t: Tick, handled: nat)
    requires Enabled(s, t)
  {
    var m := s.members[t.move.who];
    match t.move
    case Act(_, input) => Allowed(site, m, input)
    case Serve(_, reply, _, _) => reply == Respond(site, m.served.request, handled)
  }

  /** The server takes up a request the handler answers. */
  predicate CallsHandler(site: Site, s: State, t: Tick)
    requires Enabled(s, t)
  {
    && t.move.Serve? && s.members[t.move.who].served.request.ApiRequest?
    && s.members[t.move.who].served.request.token == site.setup.token
  }

  function HandledAfter(site: Site, s: State, t: Tick, handled: nat): nat
    requires Enabled(s, t)
  {
    handled + if CallsHandler(site, s, t) then 1 else 0
  }

  /** A faithful run; calls says how often the handler has been called, by anybody, up to each state. */
  ghost predicate Faithful(site: Site, states: seq<State>, ticks: seq<Tick>, calls: seq<nat>) {
    && IsRun(site.cfg, states, ticks) && |calls| == |states| && calls[0] == 0
    && forall i | 0 <= i < |ticks| && Enabled(states[i], ticks[i]) ::
         FaithfulTick(site, states[i], ticks[i], calls[i]) && calls[i + 1] == HandledAfter(site, states[i], ticks[i], calls[i])
  }

  // ----- what faithful runs keep -----

  function RunOf(core: Core, m: Member): Run {
    Run(core, m.me, m.hist)
  }

  /** A call that is not inside yet is as it began. */
  predicate Early(m: Member) {
    (m.me.pc.Start? || m.me.pc.Lock?) ==> m.me == Begin(m.me.op).(pc := m.me.pc) && m.hist == []
  }

  /** A request that is not taken up is waited for; one in flight is the last thing its caller did. */
  predicate Waiting(m: Member) {
    && (m.served.NotServed? ==> Turns.InFlight(m.me.pc))
    && (Turns.InFlight(m.me.pc) ==>
          && m.hist != [] && m.hist[|m.hist| - 1].Sent?
          && (m.me.pc.AuthFlight? <==> m.hist[|m.hist| - 1].request.AuthRequest?)
          && !m.served.Idle? && (m.served.NotServed? ==> m.served.request == m.hist[|m.hist| - 1].request))
  }

  /** The calls of the handler before the request in flight. */
  function Before(site: Site, core: Core, m: Member, handled: nat): int {
    handled - if m.served.Served? && Handles(site, RunOf(core, m)) then 1 else 0
  }

  /** The answer under way is the fake server's. */
  predicate Answered(site: Site, core: Core, m: Member, handled: nat) {
    Flying(RunOf(core, m)) && m.served.Served? ==>
      && Before(site, core, m, handled) >= 0
      && m.served.reply == Respond(site, EndToEnd.InFlight(RunOf(core, m)), Before(site, core, m, handled))
  }

  /** No token, or the server's. */
  predicate Known(site: Site, token: string) {
    PlainToken(site.setup) ==> token == "" || token == site.setup.token
  }

  /** Every token is the server's. */
  predicate TokenKnown(site: Site, core: Core, m: Member) {
    && Known(site, core.token)
    && (m.me.pc.AuthStore? ==> Known(site, m.me.pc.token))
  }

  predicate MemberKept(site: Site, core: Core, m: Member, handled: nat) {
    Early(m) && Waiting(m) && Answered(site, core, m, handled) && TokenKnown(site, core, m)
  }

  predicate Kept(site: Site, s: State, handled: nat) {
    OneHolder(s) && forall i | 0 <= i < |s.members| :: MemberKept(site, s.core, s.members[i], handled)
  }

  /** In flight a caller waits for its answer and does nothing else. */
  lemma FlightStep(cfg: Config, core: Core, me: Local, now: int, input: Input)
    requires Turns.InFlight(me.pc)
    ensures
      var out := Step(cfg, core, me, now, input);
      && out.core == core
      && (if input.Arrived? then !Turns.InFlight(out.me.pc) && out.me.pc == FlightEnd(me.pc, input.reply) && !out.said.event.Sent?
          else out == Out(core, me, Silent))
  {
  }

  function FlightEnd(pc: Pc, reply: Reply): Pc {
    if pc.AuthFlight? then AuthNext(reply) else ApiNext(reply)
  }

  lemma EarlyKept(cfg: Config, core: Core, m: Member, now: int, input: Input)
    requires Early(m)
    ensures Early(Acted(m, Step(cfg, core, m.me, now, input)))
  {
    var out := Step(cfg, core, m.me, now, input);
    assert m.hist + [] == m.hist;
    NeverEarlier(cfg, core, m.me, now, input);
  }

  lemma NeverEarlier(cfg: Config, core: Core, me: Local, now: int, input: Input)
    ensures
      var out := Step(cfg, core, me, now, input);
      out.me.pc.Start? || out.me.pc.Lock? ==>
        (me.pc.Start? || me.pc.Lock?) && out.said.Silent? && out.me == me.(pc := out.me.pc)
  {
    hide TokenOf, ResponseResult, Delay, SessionTTL, LogoutResult, UpdateSucceeded, RetryOf;
  }

  lemma WaitingKept(site: Site, core: Core, m: Member, now: int, input: Input, handled: nat)
    ensures
      var out := Step(site.cfg, core, m.me, now, input);
      Waiting(m) && Answered(site, core, m, handled) && Allowed(site, m, input) ==>
        Waiting(Acted(m, out)) && Answered(site, out.core, Acted(m, out), handled)
  {
    hide Step, Respond;
    var out := Step(site.cfg, core, m.me, now, input);
    if Turns.InFlight(m.me.pc) {
      FlightStep(site.cfg, core, m.me, now, input);
      assert m.hist + [] == m.hist;
    } else {
      Effects.StepPhase(site.cfg, core, m.me, now, input);
      assert m.hist + [] == m.hist;
    }
  }

  lemma TokenKnownKept(site: Site, core: Core, m: Member, now: int, input: Input, handled: nat)
    ensures
      var out := Step(site.cfg, core, m.me, now, input);
      Waiting(m) && Answered(site, core, m, handled) && TokenKnown(site, core, m) && Allowed(site, m, input) ==>
        TokenKnown(site, out.core, Acted(m, out))
  {
    hide Step, Respond, Trim;
    if m.me.pc.AuthFlight? && input.Arrived? {
      FlightStep(site.cfg, core, m.me, now, input);
      if Waiting(m) && Answered(site, core, m, handled) && Before(site, core, m, handled) >= 0 {
        TokenArrives(site, m.hist[|m.hist| - 1].request, Before(site, core, m, handled));
      }
    } else {
      TokenFrom(site.cfg, core, m.me, now, input);
    }
  }

  /** A token comes from a handshake. */
  lemma TokenFrom(cfg: Config, core: Core, me: Local, now: int, input: Input)
    requires !(me.pc.AuthFlight? && input.Arrived?)
    ensures
      var out := Step(cfg, core, me, now, input);
      && (out.core.token == "" || out.core.token == core.token || (me.pc.AuthStore? && out.core.token == me.pc.token))
      && (out.me.pc.AuthStore? ==> out.me.pc == me.pc)
  {
    hide TokenOf, ResponseResult, Delay, SessionTTL, LogoutResult, UpdateSucceeded, RetryOf;
  }

  lemma TokenArrives(site: Site, r: Request, n: nat)
    ensures
      var next := AuthNext(Respond(site, r, n));
      r.AuthRequest? && next.AuthStore? ==> Known(site, next.token)
  {
    hide ReplyTo, ServeAuth, Trim;
    if r.AuthRequest? {
      AuthReply(site.setup, r.authType, r.authData, r.pin);
      if PlainToken(site.setup) {
        PlainTokenArrives(site.setup);
      }
    }
  }

  /** A step of a caller in a faithful run. */
  lemma ActKept(site: Site, core: Core, m: Member, now: int, input: Input, handled: nat)
    ensures
      var out := Step(site.cfg, core, m.me, now, input);
      MemberKept(site, core, m, handled) && Allowed(site, m, input) ==> MemberKept(site, out.core, Acted(m, out), handled)
  {
    hide Step, Early, Waiting, Answered, TokenKnown, Allowed;
    if Early(m) {
      EarlyKept(site.cfg, core, m, now, input);
    }
    WaitingKept(site, core, m, now, input, handled);
    TokenKnownKept(site, core, m, now, input, handled);
  }

  /** The server takes up a request in a faithful run. */
  lemma ServeKept(site: Site, core: Core, m: Member, at: int, effects: nat, handled: nat)
    requires m.served.NotServed?
    ensures
      var asked := m.served.request.ApiRequest? && m.served.request.token == site.setup.token;
      var reply := Respond(site, m.served.request, handled);
      MemberKept(site, core, m, handled) ==>
        MemberKept(site, core, m.(served := Served(at, reply), effects := effects), handled + if asked then 1 else 0)
  {
    hide Respond, Trim;
  }

  /** Only the token of the shared state matters to a caller that does not act. */
  lemma BystanderKept(site: Site, core: Core, core': Core, m: Member, handled: nat)
    requires MemberKept(site, core, m, handled)
    requires Known(site, core'.token)
    ensures MemberKept(site, core', m, handled)
  {
    hide Respond, Trim;
  }

  lemma KeptApply(site: Site, s: State, t: Tick, handled: nat)
    requires Kept(site, s, handled) && Enabled(s, t) && FaithfulTick(site, s, t, handled)
    ensures Kept(site, Apply(site.cfg, s, t), HandledAfter(site, s, t, handled))
  {
    hide Step, Respond, Trim;
    var s' := Apply(site.cfg, s, t);
    var actor := s.members[t.move.who];
    OneHolderApply(site.cfg, s, t);
    assert MemberKept(site, s.core, actor, handled);
    if t.move.Act? {
      ActKept(site, s.core, actor, t.at, t.move.input, handled);
    } else {
      ServeKept(site, s.core, actor, t.at, s'.members[t.move.who].effects, handled);
      assert t.move.who == s.holder;
    }
    forall i | 0 <= i < |s'.members|
      ensures MemberKept(site, s'.core, s'.members[i], HandledAfter(site, s, t, handled))
    {
      assert MemberKept(site, s.core, s.members[i], handled);
      if i != t.move.who {
        BystanderKept(site, s.core, s'.core, s.members[i], handled);
      }
    }
  }

  lemma {:induction false} RunKept(site: Site, states: seq<State>, ticks: seq<Tick>, calls: seq<nat>, k: nat)
    requires Faithful(site, states, ticks, calls) && k < |states|
    ensures Kept(site, states[k], calls[k])
  {
    hide Step, Kept, FaithfulTick, HandledAfter;
    if k == 0 {
      StartKept(site, states[0]);
    } else {
      RunKept(site, states, ticks, calls, k - 1);
      assert Enabled(states[k - 1], ticks[k - 1]);
      KeptApply(site, states[k - 1], ticks[k - 1], calls[k - 1]);
    }
  }

  lemma StartKept(site: Site, s: State)
    requires Initial(s)
    ensures Kept(site, s, 0)
  {
    hide Respond, Trim;
    forall i | 0 <= i < |s.members|
      ensures MemberKept(site, s.core, s.members[i], 0)
    {
      assert s.members[i] == Member(Begin(s.members[i].me.op), [], Idle, 0);
    }
  }

  // ----- one turn is a joined run -----

  /** The handler from its base-th call on. */
  function From(site: Site, base: nat): Site {
    site.(handler := (n: nat, action: string, params: Params) => site.handler(base + n, action, params))
  }

  /** What a turn that began after base calls of the handler has come to. */
  function JointOf(site: Site, s: State, who: nat, handled: nat, base: nat): Joint
    requires who < |s.members| && base <= Before(site, s.core, s.members[who], handled)
  {
    Joint(RunOf(s.core, s.members[who]), Before(site, s.core, s.members[who], handled) - base)
  }

  /** A step of the holder is a step of the joined run or nothing. */
  predicate JoinedAfter(site: Site, core: Core, m: Member, out: Out, now: int, handled: nat, base: nat)
    requires base <= Before(site, core, m, handled)
  {
    var m', j := Acted(m, out), Joint(RunOf(core, m), Before(site, core, m, handled) - base);
    && base <= Before(site, out.core, m', handled)
    && var j' := Joint(RunOf(out.core, m'), Before(site, out.core, m', handled) - base);
       j' == j || j' == JointStep(From(site, base), j, now)
  }

  lemma FlightIsJoint(site: Site, core: Core, m: Member, now: int, input: Input, handled: nat, base: nat)
    requires MemberKept(site, core, m, handled) && Allowed(site, m, input)
    requires base <= Before(site, core, m, handled) && Turns.InFlight(m.me.pc)
    ensures JoinedAfter(site, core, m, Step(site.cfg, core, m.me, now, input), now, handled, base)
  {
    hide Step, Respond, Early, TokenKnown;
    assert m.hist + [] == m.hist;
    FlightStep(site.cfg, core, m.me, now, input);
    SameAnswer(site, m.hist[|m.hist| - 1].request, base, Before(site, core, m, handled));
  }

  lemma StepIsJoint(site: Site, core: Core, m: Member, now: int, input: Input, handled: nat, base: nat)
    requires MemberKept(site, core, m, handled) && Allowed(site, m, input)
    requires base <= Before(site, core, m, handled) && !Turns.InFlight(m.me.pc)
    ensures JoinedAfter(site, core, m, Step(site.cfg, core, m.me, now, input), now, handled, base)
  {
    hide Step, Respond, Early, TokenKnown, Answered;
    assert m.hist + [] == m.hist;
    Effects.StepPhase(site.cfg, core, m.me, now, input);
    PinWaits(site.cfg, core, m.me, now);
  }

  lemma ActIsJoint(site: Site, core: Core, m: Member, now: int, input: Input, handled: nat, base: nat)
    requires MemberKept(site, core, m, handled) && Allowed(site, m, input)
    requires base <= Before(site, core, m, handled)
    ensures JoinedAfter(site, core, m, Step(site.cfg, core, m.me, now, input), now, handled, base)
  {
    hide JoinedAfter, MemberKept, Allowed;
    if Turns.InFlight(m.me.pc) {
      FlightIsJoint(site, core, m, now, input, handled, base);
    } else {
      StepIsJoint(site, core, m, now, input, handled, base);
    }
  }

  lemma SameAnswer(site: Site, r: Request, base: nat, n: int)
    requires base <= n
    ensures Respond(From(site, base), r, n - base) == Respond(site, r, n)
  {
    hide ReplyTo, ServeAuth, ServeApi;
  }

  lemma PinWaits(cfg: Config, core: Core, me: Local, now: int)
    ensures me.pc.AskPin? ==> Step(cfg, core, me, now, Go) == Out(core, me, Silent)
  {
  }

  lemma TickIsJoint(site: Site, s: State, t: Tick, who: nat, handled: nat, base: nat)
    requires Kept(site, s, handled) && Enabled(s, t) && FaithfulTick(site, s, t, handled)
    requires who < |s.members| && HoldsSlot(s.members[who].me.pc)
    requires base <= Before(site, s.core, s.members[who], handled)
    ensures
      var s', handled' := Apply(site.cfg, s, t), HandledAfter(site, s, t, handled);
      && base <= Before(site, s'.core, s'.members[who], handled')
      && (JointOf(site, s', who, handled', base) == JointOf(site, s, who, handled, base)
          || JointOf(site, s', who, handled', base) == JointStep(From(site, base), JointOf(site, s, who, handled, base), t.at))
  {
    hide Step, Respond, Trim, JointStep, Early, TokenKnown;
    assert MemberKept(site, s.core, s.members[who], handled);
    if t.move.Act? && t.move.who == who {
      ActIsJoint(site, s.core, s.members[who], t.at, t.move.input, handled, base);
    } else {
      assert MemberKept(site, s.core, s.members[t.move.who], handled);
      Projection.OthersKeepOut(site.cfg, s, t, who);
    }
  }

  /** Where a caller of a run stands. */
  function PcAt(states: seq<State>, who: nat, k: nat): Pc
    requires k < |states| && who < |states[k].members|
  {
    states[k].members[who].me.pc
  }

  /** A caller that is at the slot at tick e and takes it, and is inside up to the tick that leads to k. */
  ghost predicate Turn(site: Site, states: seq<State>, ticks: seq<Tick>, calls: seq<nat>, who: nat, e: nat, k: nat) {
    && Faithful(site, states, ticks, calls) && |states| == |ticks| + 1 && e < k < |states| && who < |states[0].members|
    && (forall i | 0 <= i < |states| :: |states[i].members| == |states[0].members|)
    && PcAt(states, who, e).Lock? && HoldsSlot(PcAt(states, who, e + 1))
    && Projection.Inside(states, who, e + 1, k)
  }

  /** An Exec with something to do. */
  predicate IsExec(op: Op) {
    op.Exec? && op.action != ""
  }

  /** Taking the slot is how a joined run begins. */
  lemma TurnBegins(site: Site, states: seq<State>, ticks: seq<Tick>, calls: seq<nat>, who: nat, e: nat)
    returns (js: seq<Joint>, times: seq<int>)
    requires Turn(site, states, ticks, calls, who, e, e + 1) && IsExec(states[e].members[who].me.op)
    ensures
      var base := calls[e];
      && IsJoined(From(site, base), js, times) && |js| == |times| + 1 == 3
      && js[0].run == Run(states[e].core, Begin(states[e].members[who].me.op), [])
      && calls[e + 1] == base == Before(site, states[e + 1].core, states[e + 1].members[who], base)
      && js[2] == JointOf(site, states[e + 1], who, base, base)
      && !states[e].core.busy
  {
    hide Step, JointStep, FaithfulTick, Respond, Trim;
    RunKept(site, states, ticks, calls, e);
    var base := calls[e];
    var s, t := states[e], ticks[e];
    assert Enabled(s, t) && states[e + 1] == Apply(site.cfg, s, t);
    var m := s.members[who];
    assert MemberKept(site, s.core, m, base);
    assert t.move.Act? && t.move.who == who;
    EntersFresh(site.cfg, s.core, m.me, t.at, t.move.input);
    assert m.hist + [] == m.hist;
    var j0 := Joint(Run(s.core, Begin(m.me.op), []), 0);
    var j1 := JointStep(From(site, base), j0, t.at);
    js, times := [j0, j1, JointStep(From(site, base), j1, t.at)], [t.at, t.at];
    Entered(From(site, base), js, times);
  }

  lemma EntersFresh(cfg: Config, core: Core, me: Local, now: int, input: Input)
    requires me.pc.Lock? && me.op.Exec?
    ensures
      var out := Step(cfg, core, me, now, input);
      HoldsSlot(out.me.pc) ==> out == Out(core.(busy := true), me.(pc := Ensure), Silent) && !core.busy
  {
  }

  lemma JoinedSnoc(site: Site, js: seq<Joint>, times: seq<int>, now: int)
    requires IsJoined(site, js, times)
    ensures IsJoined(site, js + [JointStep(site, js[|times|], now)], times + [now])
  {
    hide JointStep;
  }

  /** A tick of a run, seen from a turn. */
  lemma TurnTick(site: Site, states: seq<State>, ticks: seq<Tick>, calls: seq<nat>, who: nat, k: nat, base: nat)
    requires Faithful(site, states, ticks, calls) && k + 1 < |states| && who < |states[k].members| == |states[k + 1].members|
    requires HoldsSlot(PcAt(states, who, k))
    requires base <= Before(site, states[k].core, states[k].members[who], calls[k])
    ensures base <= Before(site, states[k + 1].core, states[k + 1].members[who], calls[k + 1])
    ensures
      var j := JointOf(site, states[k], who, calls[k], base);
      var j' := JointOf(site, states[k + 1], who, calls[k + 1], base);
      j' == j || j' == JointStep(From(site, base), j, ticks[k].at)
  {
    hide Step, JointStep, FaithfulTick, Kept, Before, HandledAfter, JointOf, From;
    RunKept(site, states, ticks, calls, k);
    var s, t := states[k], ticks[k];
    assert Enabled(s, t) && FaithfulTick(site, s, t, calls[k]);
    assert states[k + 1] == Apply(site.cfg, s, t);
    TickIsJoint(site, s, t, who, calls[k], base);
  }

  /** A turn, wherever it has come to, is a joined run of the call against the handler from its base on. */
  lemma {:induction false} TurnIsJoined(site: Site, states: seq<State>, ticks: seq<Tick>, calls: seq<nat>, who: nat, e: nat, k: nat)
    returns (js: seq<Joint>, times: seq<int>)
    requires Turn(site, states, ticks, calls, who, e, k) && IsExec(states[e].members[who].me.op)
    ensures
      var base := calls[e];
      && IsJoined(From(site, base), js, times) && |js| == |times| + 1 >= 3
      && js[0].run == Run(states[e].core, Begin(states[e].members[who].me.op), []) && !states[e].core.busy
      && base <= Before(site, states[k].core, states[k].members[who], calls[k])
      && js[|times|] == JointOf(site, states[k], who, calls[k], base)
  {
    hide JointStep, IsRun, FaithfulTick, Before, HandledAfter, JointOf, From, IsJoined;
    if k == e + 1 {
      js, times := TurnBegins(site, states, ticks, calls, who, e);
    } else {
      js, times := TurnIsJoined(site, states, ticks, calls, who, e, k - 1);
      var base := calls[e];
      assert HoldsSlot(PcAt(states, who, k - 1));
      TurnTick(site, states, ticks, calls, who, k - 1, base);
      if js[|times|] != JointOf(site, states[k], who, calls[k], base) {
        JoinedSnoc(From(site, base), js, times, ticks[k - 1].at);
        js, times := js + [JointStep(From(site, base), js[|times|], ticks[k - 1].at)], times + [ticks[k - 1].at];
      }
    }
  }

  /** With matching credentials no token is ever stale. */
  lemma NeverStale(site: Site, states: seq<State>, ticks: seq<Tick>, calls: seq<nat>, k: nat, who: nat, now: int)
    requires Faithful(site, states, ticks, calls) && k < |states| && who < |states[k].members|
    requires Matching(site, states[k].core.password)
    ensures !Stale(site, states[k].core, now)
  {
    hide FaithfulTick, Trim, Early, Waiting, Answered;
    RunKept(site, states, ticks, calls, k);
    assert MemberKept(site, states[k].core, states[k].members[who], calls[k]);
  }

  /** A call that has left the slot with a result. */
  predicate Left(pc: Pc, result: Result) {
    pc == Leaving(result) || pc == Done(result)
  }

  /** Once it has left, a joined run is over in at most one more step. */
  lemma Finish(site: Site, js: seq<Joint>, times: seq<int>) returns (js': seq<Joint>, times': seq<int>, result: Result)
    requires IsJoined(site, js, times) && Startable(site, js[0].run) && |times| >= 3
    requires !HoldsSlot(js[|times|].run.me.pc)
    ensures IsJoined(site, js', times') && |js'| == |times'| + 1 && js'[0] == js[0] && |times'| >= 3
    ensures js'[|times'|].run.me.pc == Done(result) && Left(js[|times|].run.me.pc, result)
    ensures js'[|times'|].handled == js[|times|].handled && times'[2] == times[2]
  {
    hide JointStep, Matching, EndOf, Good;
    OnTrack(site, js, times, |times|);
    LeftOrInside(site, js[|times|], EndOf(site, js, times));
    if js[|times|].run.me.pc.Done? {
      js', times', result := js, times, js[|times|].run.me.pc.result;
    } else {
      result := js[|times|].run.me.pc.result;
      LeavingEnds(site, js[|times|], 0);
      JoinedSnoc(site, js, times, 0);
      js', times' := js + [JointStep(site, js[|times|], 0)], times + [0];
    }
  }

  lemma LeftOrInside(site: Site, j: Joint, end: EndToEnd.Outcome)
    requires Good(site, j, end)
    ensures HoldsSlot(j.run.me.pc) || j.run.me.pc.Leaving? || j.run.me.pc.Done?
  {
    hide Expect, AfterFault, Matching, ResponseResult, FlightKept;
  }

  lemma LeavingEnds(site: Site, j: Joint, now: int)
    requires j.run.me.pc.Leaving?
    ensures JointStep(site, j, now).run.me.pc == Done(j.run.me.pc.result)
    ensures JointStep(site, j, now).handled == j.handled
  {
  }

  /** In every interleaving of any number of callers, an Exec whose credentials match when it takes the slot
      leaves it with the first answer of the handler, counted from then, that is not tried again; and all
      calls of the handler in between are its own. */
  lemma TurnIsTheHandler(site: Site, states: seq<State>, ticks: seq<Tick>, calls: seq<nat>, who: nat, e: nat, f: nat) returns (n: nat)
    requires Turn(site, states, ticks, calls, who, e, f) && !HoldsSlot(PcAt(states, who, f))
    requires IsExec(states[e].members[who].me.op) && Matching(site, states[e].core.password)
    ensures
      var base, op := calls[e], states[e].members[who].me.op;
      && Settles(From(site, base), op, false, n) && n <= 4
      && Left(PcAt(states, who, f), ResultOf(EndToEnd.Seen(site, op, base + n)))
      && calls[f] == base + n + 1
  {
    hide IsRun, FaithfulTick, JointStep, IsJoined, Settles, Matching, Stale, EndToEnd.Seen, ResultOf;
    var base := calls[e];
    var js, times := TurnIsJoined(site, states, ticks, calls, who, e, f);
    MatchingFrom(site, base, states[e].core.password);
    TwoStepsInside(From(site, base), js, times);
    var js', times', result := Finish(From(site, base), js, times);
    n := ExecIsTheHandler(From(site, base), js', times', |times'|);
    NeverStale(site, states, ticks, calls, e, who, times[2]);
    StaleFrom(site, base, states[e].core, times[2]);
    SeenFrom(site, states[e].members[who].me.op, base, n);
  }

  lemma MatchingFrom(site: Site, base: nat, password: string)
    ensures Matching(From(site, base), password) <==> Matching(site, password)
  {
    hide Trim;
  }

  lemma StaleFrom(site: Site, base: nat, core: Core, now: int)
    ensures Stale(From(site, base), core, now) <==> Stale(site, core, now)
  {
  }

  lemma SeenFrom(site: Site, op: Op, base: nat, n: nat)
    requires op.Exec?
    ensures EndToEnd.Seen(From(site, base), op, n) == EndToEnd.Seen(site, op, base + n)
  {
    hide See;
  }

  lemma TwoStepsInside(site: Site, js: seq<Joint>, times: seq<int>)
    requires IsJoined(site, js, times) && Startable(site, js[0].run) && |times| >= 2
    ensures |times| == 2 ==> HoldsSlot(js[|times|].run.me.pc)
  {
    hide Matching, JointStep;
    Entered(site, js, times);
  }

  // ----- every Exec has a turn -----

  /** How a caller gets inside and out again. */
  lemma Crossing(cfg: Config, core: Core, me: Local, now: int, input: Input)
    requires me.op.Exec?
    ensures
      var pc' := Step(cfg, core, me, now, input).me.pc;
      && (!HoldsSlot(me.pc) && HoldsSlot(pc') ==> me.pc.Lock? || me.pc.Relock?)
      && (me.pc.Leaving? || me.pc.Done? ==> Left(pc', me.pc.result))
      && ((me.pc.Start? && me.op.action != "") || me.pc.Lock? ==> input.CtxEnded? || !(pc'.Leaving? || pc'.Done?))
  {
    hide TokenOf, ResponseResult, Delay, SessionTTL, LogoutResult, UpdateSucceeded, RetryOf;
    StepSlot(cfg, core, me, now, input);
  }

  /** What one tick does to where an Exec stands. */
  lemma TickCrossing(site: Site, states: seq<State>, ticks: seq<Tick>, calls: seq<nat>, who: nat, k: nat)
    requires Faithful(site, states, ticks, calls) && k + 1 < |states| && who < |states[k].members|
    requires IsExec(states[k].members[who].me.op)
    ensures |states[k + 1].members| == |states[k].members|
    ensures states[k + 1].members[who].me.op == states[k].members[who].me.op
    ensures
      var pc, pc' := PcAt(states, who, k), PcAt(states, who, k + 1);
      && (!HoldsSlot(pc) && HoldsSlot(pc') ==> pc.Lock?)
      && (pc.Leaving? || pc.Done? ==> Left(pc', pc.result))
      && (!HoldsSlot(pc) && (pc'.Leaving? || pc'.Done?) ==> pc.Leaving? || pc.Done?)
  {
    hide Step, Respond;
    assert Enabled(states[k], ticks[k]);
    Sessions.RunTokenKept(site.cfg, states, ticks, k);
    var m, t := states[k].members[who], ticks[k];
    assert Sessions.TokenFits(states[k].core, m.me);
    if t.move.Act? && t.move.who == who {
      assert Allowed(site, m, t.move.input);
      Crossing(site.cfg, states[k].core, m.me, t.at, t.move.input);
      StepSlot(site.cfg, states[k].core, m.me, t.at, t.move.input);
    }
  }

  lemma Sizes(site: Site, states: seq<State>, ticks: seq<Tick>, calls: seq<nat>)
    requires Faithful(site, states, ticks, calls)
    ensures |states| == |ticks| + 1
    ensures forall i | 0 <= i < |states| :: |states[i].members| == |states[0].members|
    ensures forall i | 0 <= i < |states[0].members| :: PcAt(states, i, 0).Start?
  {
    hide FaithfulTick, Apply;
    forall i | 0 <= i < |states|
      ensures |states[i].members| == |states[0].members|
    {
      Projection.SameMembers(site.cfg, states, ticks, i);
    }
  }

  lemma {:induction false} EntryOf(site: Site, states: seq<State>, ticks: seq<Tick>, calls: seq<nat>, who: nat, k: nat) returns (e: nat)
    requires Faithful(site, states, ticks, calls) && k < |states| && who < |states[k].members|
    requires IsExec(states[k].members[who].me.op) && HoldsSlot(PcAt(states, who, k))
    ensures Turn(site, states, ticks, calls, who, e, k)
    ensures states[e].members[who].me.op == states[k].members[who].me.op
  {
    hide Faithful;
    Sizes(site, states, ticks, calls);
    e := 0;
    if k > 0 {
      SameOp(site, states, ticks, calls, who, k - 1);
      TickCrossing(site, states, ticks, calls, who, k - 1);
      if HoldsSlot(PcAt(states, who, k - 1)) {
        e := EntryOf(site, states, ticks, calls, who, k - 1);
      } else {
        e := k - 1;
      }
    }
  }

  lemma SameOp(site: Site, states: seq<State>, ticks: seq<Tick>, calls: seq<nat>, who: nat, k: nat)
    requires Faithful(site, states, ticks, calls) && k + 1 < |states| && who < |states[0].members|
    ensures |states[k].members| == |states[k + 1].members| == |states[0].members|
    ensures states[k + 1].members[who].me.op == states[k].members[who].me.op
  {
    hide FaithfulTick, Step;
    Projection.SameMembers(site.cfg, states, ticks, k);
    Projection.SameMembers(site.cfg, states, ticks, k + 1);
    assert Enabled(states[k], ticks[k]);
    if ticks[k].move.Act? && ticks[k].move.who == who {
      StepSlot(site.cfg, states[k].core, states[k].members[who].me, ticks[k].at, ticks[k].move.input);
    }
  }

  /** An Exec that is over had a turn and has its result since. */
  lemma {:induction false} TurnOf(site: Site, states: seq<State>, ticks: seq<Tick>, calls: seq<nat>, who: nat, k: nat)
    returns (e: nat, f: nat)
    requires Faithful(site, states, ticks, calls) && k < |states| && who < |states[k].members|
    requires IsExec(states[k].members[who].me.op) && (PcAt(states, who, k).Leaving? || PcAt(states, who, k).Done?)
    ensures f <= k && Turn(site, states, ticks, calls, who, e, f) && !HoldsSlot(PcAt(states, who, f))
    ensures states[e].members[who].me.op == states[k].members[who].me.op
    ensures forall r :: Left(PcAt(states, who, f), r) ==> Left(PcAt(states, who, k), r)
  {
    hide Faithful;
    Sizes(site, states, ticks, calls);
    e, f := 0, 0;
    if k > 0 {
      SameOp(site, states, ticks, calls, who, k - 1);
      TickCrossing(site, states, ticks, calls, who, k - 1);
      if HoldsSlot(PcAt(states, who, k - 1)) {
        f := k;
        e := EntryOf(site, states, ticks, calls, who, k - 1);
        assert Projection.Inside(states, who, e + 1, k);
      } else {
        e, f := TurnOf(site, states, ticks, calls, who, k - 1);
      }
    }
  }

  /** Every Exec that is over, in every interleaving: it had one turn, from e to f, and if its credentials
      matched at e it has returned the first answer of the handler from then on that is not tried again. The
      handler was called for that answer and those before it, and for nobody else during the turn. */
  lemma EveryExecIsTheHandler(site: Site, states: seq<State>, ticks: seq<Tick>, calls: seq<nat>, who: nat, k: nat)
    returns (e: nat, f: nat, n: nat)
    requires Faithful(site, states, ticks, calls) && k < |states| && who < |states[k].members|
    requires IsExec(states[k].members[who].me.op) && PcAt(states, who, k).Done?
    ensures f <= k && Turn(site, states, ticks, calls, who, e, f) && !HoldsSlot(PcAt(states, who, f))
    ensures Matching(site, states[e].core.password) ==>
      var base, op := calls[e], states[k].members[who].me.op;
      && Settles(From(site, base), op, false, n) && n <= 4
      && PcAt(states, who, k) == Done(ResultOf(See(site.setup, op.action, site.handler(base + n, op.action, op.params))))
      && calls[f] == base + n + 1
  {
    hide IsRun, FaithfulTick, Matching, Settles, See, ResultOf, From;
    e, f := TurnOf(site, states, ticks, calls, who, k);
    n := 0;
    if Matching(site, states[e].core.password) {
      n := TurnIsTheHandler(site, states, ticks, calls, who, e, f);
    }
  }
}
