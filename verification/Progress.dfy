/** Progress with any number of callers (client.go): their calls take a bounded number of steps in all, and
    as long as one is unfinished somebody can take one. */
module Progress {
  import opened Soap
  import opened Caller
  import opened CallerLaws
  import opened Turns
  import Flood

  /** What all callers have left to do. */
  function TotalRank(members: seq<Member>): int {
    if members == [] then 0 else TotalRank(members[..|members| - 1]) + Rank(members[|members| - 1].me)
  }

  lemma {:induction false} TotalRankUpdate(members: seq<Member>, i: nat, m: Member)
    requires i < |members|
    ensures TotalRank(members[i := m]) == TotalRank(members) - Rank(members[i].me) + Rank(m.me)
  {
    hide Rank;
    var init := members[..|members| - 1];
    if i == |members| - 1 {
      assert members[i := m][..|members| - 1] == init;
    } else {
      assert members[i := m][..|members| - 1] == init[i := m];
      TotalRankUpdate(init, i, m);
    }
  }

  /** Every caller has kept to its retries. */
  predicate Retrying(members: seq<Member>) {
    forall i | 0 <= i < |members| :: members[i].me.flood <= MAX_FLOOD_RETRIES
  }

  lemma {:induction false} TotalRankNatural(members: seq<Member>)
    requires Retrying(members)
    ensures TotalRank(members) >= 0
  {
    if members != [] {
      TotalRankNatural(members[..|members| - 1]);
    }
  }

  lemma {:induction false} TotalRankBegins(members: seq<Member>)
    requires forall i | 0 <= i < |members| :: members[i].me == Begin(members[i].me.op)
    ensures TotalRank(members) == 104 * |members|
  {
    if members != [] {
      TotalRankBegins(members[..|members| - 1]);
    }
  }

  /** A tick changes where a caller stands. */
  predicate Moves(s: State, s': State) {
    exists i | 0 <= i < |s.members| && i < |s'.members| :: s.members[i].me != s'.members[i].me
  }

  /** How many of the first k ticks of a run move a caller. */
  function Moved(states: seq<State>, k: nat): nat
    requires k < |states|
  {
    if k == 0 then 0 else Moved(states, k - 1) + if Moves(states[k - 1], states[k]) then 1 else 0
  }

  /** A tick that moves a caller leaves less to do, and no tick leaves more. */
  lemma TickUsesRank(cfg: Config, s: State, t: Tick)
    requires Enabled(s, t) && Retrying(s.members)
    ensures
      var s' := Apply(cfg, s, t);
      TotalRank(s'.members) <= TotalRank(s.members) - if Moves(s, s') then 1 else 0
  {
    hide Step, Rank;
    var m, m' := s.members[t.move.who], Apply(cfg, s, t).members[t.move.who];
    TotalRankUpdate(s.members, t.move.who, m');
    if t.move.Act? {
      StepForward(cfg, s.core, m.me, t.at, t.move.input);
    }
  }

  lemma RetryingInRun(cfg: Config, states: seq<State>, ticks: seq<Tick>, k: nat)
    requires IsRun(cfg, states, ticks) && k < |states|
    ensures Retrying(states[k].members)
  {
    hide IsRun, Flood.WindowKept, Flood.LogSafe;
    Flood.RunSafe(cfg, states, ticks, k);
    forall i | 0 <= i < |states[k].members|
      ensures states[k].members[i].me.flood <= MAX_FLOOD_RETRIES
    {
      assert MemberLawful(states[k].members[i], states[k].now);
    }
  }

  lemma {:induction false} RankIsUsed(cfg: Config, states: seq<State>, ticks: seq<Tick>, k: nat)
    requires IsRun(cfg, states, ticks) && k < |states|
    ensures Moved(states, k) + TotalRank(states[k].members) <= 104 * |states[0].members|
  {
    hide Apply, Moves, Rank, TotalRank;
    if k == 0 {
      TotalRankBegins(states[0].members);
    } else {
      RankIsUsed(cfg, states, ticks, k - 1);
      assert Enabled(states[k - 1], ticks[k - 1]);
      RetryingInRun(cfg, states, ticks, k - 1);
      TickUsesRank(cfg, states[k - 1], ticks[k - 1]);
    }
  }

  /** In every run of n callers at most 104 n ticks move a caller, whatever the server answers. */
  lemma BoundedWork(cfg: Config, states: seq<State>, ticks: seq<Tick>, k: nat)
    requires IsRun(cfg, states, ticks) && k < |states|
    ensures Moved(states, k) <= 104 * |states[0].members|
  {
    hide IsRun;
    RankIsUsed(cfg, states, ticks, k);
    RetryingInRun(cfg, states, ticks, k);
    TotalRankNatural(states[k].members);
  }

  // ----- somebody can move -----

  /** What lets a caller go on. An answer may be lost, a PIN refused. */
  function Nudge(pc: Pc): Input {
    if InFlight(pc) then Arrived(Broken) else if pc.AskPin? then PinFailed else Go
  }

  lemma NudgeMoves(cfg: Config, core: Core, me: Local, now: int)
    requires !me.pc.Done? && now >= core.notBefore && (HoldsSlot(me.pc) || !core.busy)
    ensures Step(cfg, core, me, now, Nudge(me.pc)).me != me
  {
    hide TokenOf, ResponseResult, Delay, SessionTTL, LogoutResult, UpdateSucceeded, RetryOf, AuthCall, ApiCall;
  }

  /** In every state of every run in which a call is not over, some caller can take a step at any time from
      some time on: nobody waits for ever for the slot or for somebody else. */
  lemma SomebodyCanMove(cfg: Config, states: seq<State>, ticks: seq<Tick>, k: nat, who: nat)
    returns (mover: nat, from: int)
    requires IsRun(cfg, states, ticks) && k < |states|
    requires who < |states[k].members| && !states[k].members[who].me.pc.Done?
    ensures mover < |states[k].members|
    ensures forall at | at >= from ::
      var t := Tick(at, Act(mover, Nudge(states[k].members[mover].me.pc)));
      Enabled(states[k], t) && Moves(states[k], Apply(cfg, states[k], t))
  {
    hide IsRun, Flood.WindowKept, Flood.LogSafe, AllLawful, Step;
    var s := states[k];
    Flood.RunSafe(cfg, states, ticks, k);
    mover := if s.core.busy then s.holder else who;
    from := if s.now < s.core.notBefore then s.core.notBefore else s.now;
    forall at | at >= from
      ensures
        var t := Tick(at, Act(mover, Nudge(s.members[mover].me.pc)));
        Enabled(s, t) && Moves(s, Apply(cfg, s, t))
    {
      NudgeMoves(cfg, s.core, s.members[mover].me, at);
      var s' := Apply(cfg, s, Tick(at, Act(mover, Nudge(s.members[mover].me.pc))));
      assert s'.members[mover].me != s.members[mover].me;
    }
  }
}
