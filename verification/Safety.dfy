/** The laws of one caller and of the flood window read off the states of a run. */
module Safety {
  import opened Soap
  import opened Caller
  import opened CallerLaws
  import opened Turns
  import opened Flood

  predicate SameSession(a: Core, b: Core) {
    a.token == b.token && a.tokenExp == b.tokenExp && a.notBefore == b.notBefore && a.password == b.password
  }

  /** Mutual exclusion in every interleaving: at most one caller is inside, so no two wait for an answer; the
      slot is taken exactly when somebody is inside, so every exit frees it; and only the caller
      inside changes the session state or sends. */
  lemma MutualExclusion(cfg: Config, states: seq<State>, ticks: seq<Tick>, k: nat)
    requires IsRun(cfg, states, ticks) && k < |states|
    ensures
      var ms := states[k].members;
      && (forall i, j | 0 <= i < |ms| && 0 <= j < |ms| && HoldsSlot(ms[i].me.pc) && HoldsSlot(ms[j].me.pc) :: i == j)
      && (forall i, j | 0 <= i < |ms| && 0 <= j < |ms| && InFlight(ms[i].me.pc) && InFlight(ms[j].me.pc) :: i == j)
      && (states[k].core.busy <==> exists i | 0 <= i < |ms| :: HoldsSlot(ms[i].me.pc))
    ensures
      (&& k < |ticks| && ticks[k].move.who < |states[k].members|
       && (!SameSession(states[k].core, states[k + 1].core) || states[k + 1].log != states[k].log)) ==>
        ticks[k].move.Act? && HoldsSlot(states[k].members[ticks[k].move.who].me.pc)
  {
    RunSafe(cfg, states, ticks, k);
    assert OneHolder(states[k]);
    if states[k].core.busy {
      assert HoldsSlot(states[k].members[states[k].holder].me.pc);
    }
    if k < |ticks| {
      assert Enabled(states[k], ticks[k]);
      if ticks[k].move.Act? {
        StepSlot(cfg, states[k].core, states[k].members[ticks[k].move.who].me, ticks[k].at, ticks[k].move.input);
      }
    }
  }

  /** A caller that does not get the slot has sent nothing and changed nothing. */
  lemma FailedLockIsSilent(cfg: Config, states: seq<State>, ticks: seq<Tick>, k: nat)
    requires IsRun(cfg, states, ticks) && k < |ticks| && ticks[k].move.Act?
    requires ticks[k].move.who < |states[k].members|
    requires
      var pc := states[k].members[ticks[k].move.who].me.pc;
      (pc.Start? || pc.Lock?) && !HoldsSlot(states[k + 1].members[ticks[k].move.who].me.pc)
    ensures states[k + 1].core == states[k].core && states[k + 1].log == states[k].log
    ensures states[k + 1].members[ticks[k].move.who].hist == []
  {
    RunSafe(cfg, states, ticks, k);
    assert Enabled(states[k], ticks[k]);
    var m := states[k].members[ticks[k].move.who];
    assert MemberLawful(m, states[k].now);
    StepSlot(cfg, states[k].core, m.me, ticks[k].at, ticks[k].move.input);
  }

  /** No request starts before the end of what an earlier response or flood retry forbids: after a KasApi
      response that is a map the delay it announces, in whole milliseconds, and after the k-th flood retry 2k
      seconds. Times are nanoseconds. */
  predicate KeepsDistance(cfg: Config, log: seq<Entry>) {
    && (forall i, j | 0 <= i < j < |log| && IsMapAnswer(log[i].event) && log[j].event.Sent? ::
          log[j].event.at >= log[i].event.at + (Announced(cfg, log[i].event.reply.value) * 1000.0).Floor * 1_000_000)
    && (forall i, j | 0 <= i < j < |log| && IsFloodGrant(log[i].event) && log[j].event.Sent? ::
          log[j].event.at >= log[i].event.at + log[i].event.nth * 2_000_000_000)
  }

  lemma SafeKeepsDistance(cfg: Config, log: seq<Entry>)
    requires LogSafe(cfg, log)
    ensures KeepsDistance(cfg, log)
  {
    hide Announced;
    forall i, j | 0 <= i < j < |log| && Binding(log[i].event) && log[j].event.Sent?
      ensures ClearFrom(cfg, log[i].event) <= log[j].event.at
    {
    }
  }

  /** Flood safety in every run: whoever calls, requests keep their distance, every request starts at or
      after the notBefore in force, and notBefore never goes back. */
  lemma FloodSafety(cfg: Config, states: seq<State>, ticks: seq<Tick>, k: nat)
    requires IsRun(cfg, states, ticks) && k < |states|
    ensures KeepsDistance(cfg, states[k].log)
    ensures k < |ticks| ==> states[k + 1].core.notBefore >= states[k].core.notBefore
    ensures k < |ticks| && Sends(states[k], states[k + 1]) ==> states[k].core.notBefore <= ticks[k].at
  {
    hide Step, KeepsDistance, Announced;
    RunSafe(cfg, states, ticks, k);
    SafeKeepsDistance(cfg, states[k].log);
    if k < |ticks| {
      assert Enabled(states[k], ticks[k]);
      WindowKeptApply(cfg, states[k], ticks[k]);
      if Sends(states[k], states[k + 1]) {
        SendsAfterWindow(cfg, states[k], ticks[k]);
      }
    }
  }

  /** A request leaves between two states. */
  predicate Sends(s: State, s': State) {
    |s'.log| > |s.log| && s'.log[|s.log|].event.Sent?
  }

  lemma SendsAfterWindow(cfg: Config, s: State, t: Tick)
    requires Safe(cfg, s) && Enabled(s, t)
    ensures Sends(s, Apply(cfg, s, t)) ==> s.core.notBefore <= t.at
  {
    hide Step;
    if t.move.Act? {
      var me := s.members[t.move.who].me;
      StepSlot(cfg, s.core, me, t.at, t.move.input);
      if HoldsSlot(me.pc) {
        StepWindow(cfg, s.core, me, t.at, t.move.input);
      }
    }
  }

  /** The entries of one caller. */
  function Project(log: seq<Entry>, who: nat): History {
    if log == [] then []
    else
      var last := log[|log| - 1];
      Project(log[..|log| - 1], who) + if last.who == who then [last.event] else []
  }

  predicate LogIsHistory(s: State) {
    forall i | 0 <= i < |s.members| :: Project(s.log, i) == s.members[i].hist
  }

  lemma {:induction false} RunLogIsHistory(cfg: Config, states: seq<State>, ticks: seq<Tick>, k: nat)
    requires IsRun(cfg, states, ticks) && k < |states|
    ensures LogIsHistory(states[k])
  {
    hide Step, LogIsHistory, Apply;
    if k == 0 {
      NoLog(states[0]);
    } else {
      RunLogIsHistory(cfg, states, ticks, k - 1);
      assert Enabled(states[k - 1], ticks[k - 1]);
      TickLog(cfg, states[k - 1], ticks[k - 1]);
    }
  }

  lemma NoLog(s: State)
    requires Initial(s)
    ensures LogIsHistory(s)
  {
  }

  lemma TickLog(cfg: Config, s: State, t: Tick)
    requires Enabled(s, t) && LogIsHistory(s)
    ensures LogIsHistory(Apply(cfg, s, t))
  {
    hide Step, Project;
    var s' := Apply(cfg, s, t);
    var said := if t.move.Act? then Step(cfg, s.core, s.members[t.move.who].me, t.at, t.move.input).said else Silent;
    forall i | 0 <= i < |s'.members|
      ensures Project(s'.log, i) == s'.members[i].hist
    {
      ProjectSnoc(s.log, t.move.who, said, i);
      assert s.members[i].hist + [] == s.members[i].hist;
    }
  }

  lemma ProjectSnoc(log: seq<Entry>, who: nat, said: Said, i: nat)
    ensures Project(log + Tagged(who, said), i) == Project(log, i) + if who == i then Heard(said) else []
  {
    match said
    case Silent => assert log + [] == log;
    case Says(e) => assert (log + [Entry(who, e)])[..|log|] == log;
  }

  /** Two events of a caller stand in the log in the same order. */
  lemma {:induction false} ProjectOrder(log: seq<Entry>, who: nat, p: nat, q: nat) returns (i: nat, j: nat)
    requires p < q < |Project(log, who)|
    ensures i < j < |log|
    ensures log[i] == Entry(who, Project(log, who)[p]) && log[j] == Entry(who, Project(log, who)[q])
  {
    var init := log[..|log| - 1];
    if q < |Project(init, who)| {
      i, j := ProjectOrder(init, who, p, q);
    } else {
      i := ProjectAt(init, who, p);
      j := |log| - 1;
    }
  }

  lemma {:induction false} ProjectAt(log: seq<Entry>, who: nat, p: nat) returns (i: nat)
    requires p < |Project(log, who)|
    ensures i < |log| && log[i] == Entry(who, Project(log, who)[p])
  {
    var init := log[..|log| - 1];
    if p < |Project(init, who)| {
      i := ProjectAt(init, who, p);
    } else {
      i := |log| - 1;
    }
  }

  /** The k-th flood retry of a call sends nothing for at least 2k seconds after the fault. */
  lemma BackoffAfterFault(cfg: Config, states: seq<State>, ticks: seq<Tick>, n: nat, who: nat, p: nat, q: nat)
    requires IsRun(cfg, states, ticks) && n < |states| && who < |states[n].members|
    requires
      var h := states[n].members[who].hist;
      p < q < |h| && h[p].Granted? && h[p].retry == RetryFlood && h[q].Sent?
    ensures
      var h := states[n].members[who].hist;
      && p > 0 && h[p - 1].Answered? && h[p - 1].reply == Fault("flood_protection")
      && h[p].nth == FloodGrants(h[..p]) + 1
      && h[q].at >= h[p - 1].at + h[p].nth * 2_000_000_000
  {
    var h := states[n].members[who].hist;
    RunSafe(cfg, states, ticks, n);
    assert MemberLawful(states[n].members[who], states[n].now);
    GrantFollowsFault(h, p);
    RunLogIsHistory(cfg, states, ticks, n);
    var i, j := ProjectOrder(states[n].log, who, p, q);
    assert Binding(states[n].log[i].event);
    assert ClearFrom(cfg, states[n].log[i].event) <= states[n].log[j].event.at;
  }

  /** One call, whatever the server answers and whoever else calls: at most five attempts and ten
      requests, one attempt and two requests for a Logout; every KasApi request but the last was answered by a flood or session fault; and
      nothing follows a final answer. */
  lemma EveryCall(cfg: Config, states: seq<State>, ticks: seq<Tick>, n: nat, who: nat)
    requires IsRun(cfg, states, ticks) && n < |states| && who < |states[n].members|
    ensures
      var h := states[n].members[who].hist;
      && Attempts(h) <= 5 && Requests(h) <= 10
      && (states[n].members[who].me.op.Logout? ==> Attempts(h) <= 1 && Requests(h) <= 2)
      && (forall p, q | 0 <= p < q < |h| && h[p].Sent? && !IsAuth(h[p].request) && h[q].Sent? ::
            h[p + 1].Answered? && h[p + 1].reply.Fault? && RetryableCode(h[p + 1].reply.code))
      && (forall p | 0 <= p < |h| - 1 :: !Final(h[p]))
  {
    var h := states[n].members[who].hist;
    RunSafe(cfg, states, ticks, n);
    assert MemberLawful(states[n].members[who], states[n].now);
    CallBounds(states[n].members[who].me, DigestOf(h), states[n].now);
    forall p, q | 0 <= p < q < |h| && h[p].Sent? && !IsAuth(h[p].request) && h[q].Sent?
      ensures h[p + 1].Answered? && h[p + 1].reply.Fault? && RetryableCode(h[p + 1].reply.code)
    {
      RequestsBeforeLast(h, p, q);
    }
    forall p | 0 <= p < |h| - 1
      ensures !Final(h[p])
    {
      FinalEnds(h, p);
    }
  }
}
