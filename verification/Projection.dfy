/** The runs of Turns seen by one caller (client.go): a call in any interleaving is a run of its own program
    in which the other callers change the shared state only while it is outside, which is all that the
    methods of Client are proved to be. Inside, it runs as if it were alone. */
module Projection {
  import opened Caller
  import opened Turns
  import Flood

  /** What one tick is to a caller. */
  function Witnessed(cfg: Config, s: State, t: Tick, who: nat): seq<Stamp>
    requires Enabled(s, t) && who < |s.members|
  {
    if t.move.Act? && t.move.who == who then [Stamp(t.at, t.move.input)]
    else if HoldsSlot(s.members[who].me.pc) then []
    else [Others(t.at, Apply(cfg, s, t).core)]
  }

  /** The number of callers stays. */
  lemma {:induction false} SameMembers(cfg: Config, states: seq<State>, ticks: seq<Tick>, k: nat)
    requires IsRun(cfg, states, ticks) && k < |states|
    ensures |states[k].members| == |states[0].members|
  {
    hide Step;
    if k > 0 {
      SameMembers(cfg, states, ticks, k - 1);
      assert Enabled(states[k - 1], ticks[k - 1]);
    }
  }

  /** What a caller has witnessed up to a state. */
  ghost function Stamps(cfg: Config, states: seq<State>, ticks: seq<Tick>, who: nat, k: nat): seq<Stamp>
    requires IsRun(cfg, states, ticks) && k < |states| && who < |states[0].members|
  {
    if k == 0 then []
    else
      SameMembers(cfg, states, ticks, k - 1);
      Stamps(cfg, states, ticks, who, k - 1) + Witnessed(cfg, states[k - 1], ticks[k - 1], who)
  }

  /** Nobody else touches the shared state while a caller is inside. */
  lemma OthersKeepOut(cfg: Config, s: State, t: Tick, who: nat)
    requires OneHolder(s) && Enabled(s, t) && who < |s.members| && HoldsSlot(s.members[who].me.pc)
    requires !(t.move.Act? && t.move.who == who)
    ensures Apply(cfg, s, t).core == s.core
    ensures Apply(cfg, s, t).members[who].me == s.members[who].me
    ensures Apply(cfg, s, t).members[who].hist == s.members[who].hist
  {
    hide Step;
    if t.move.Act? {
      StepSlot(cfg, s.core, s.members[t.move.who].me, t.at, t.move.input);
    }
  }

  /** Some steps of its program lead a caller where it is, the others keeping out while it is inside. */
  predicate Retraced(cfg: Config, core: Core, s: State, who: nat, steps: seq<Stamp>)
    requires who < |s.members|
  {
    var m := s.members[who];
    && Replay(cfg, core, Begin(m.me.op), steps) == Run(s.core, m.me, m.hist)
    && Respected(cfg, core, Begin(m.me.op), steps)
    && Ascending(steps) && (steps != [] ==> steps[|steps| - 1].at <= s.now)
  }

  /** In every interleaving the call of every caller is a run of its program, and the others leave the
      shared state alone while it has the slot. */
  lemma {:induction false} CallIsReplay(cfg: Config, states: seq<State>, ticks: seq<Tick>, who: nat, k: nat)
    requires IsRun(cfg, states, ticks) && k < |states| && who < |states[0].members|
    ensures |states[k].members| == |states[0].members|
    ensures Retraced(cfg, states[0].core, states[k], who, Stamps(cfg, states, ticks, who, k))
  {
    hide Step, Retraced, Witnessed;
    SameMembers(cfg, states, ticks, k);
    if k == 0 {
      StartIsReplay(cfg, states[0], who);
    } else {
      CallIsReplay(cfg, states, ticks, who, k - 1);
      Flood.RunSafe(cfg, states, ticks, k - 1);
      assert Enabled(states[k - 1], ticks[k - 1]);
      TickIsReplay(cfg, states[k - 1], ticks[k - 1], who, states[0].core, Stamps(cfg, states, ticks, who, k - 1));
    }
  }

  lemma StartIsReplay(cfg: Config, s: State, who: nat)
    requires Initial(s) && who < |s.members|
    ensures Retraced(cfg, s.core, s, who, [])
  {
  }

  lemma TickIsReplay(cfg: Config, s: State, t: Tick, who: nat, core: Core, steps: seq<Stamp>)
    requires OneHolder(s) && Enabled(s, t) && who < |s.members|
    requires Retraced(cfg, core, s, who, steps)
    ensures Retraced(cfg, core, Apply(cfg, s, t), who, steps + Witnessed(cfg, s, t, who))
  {
    hide Step, Respected, Replay;
    var m := s.members[who];
    if t.move.Act? {
      StepSlot(cfg, s.core, s.members[t.move.who].me, t.at, t.move.input);
    }
    if t.move.Act? && t.move.who == who {
      ReplaySnoc(cfg, core, Begin(m.me.op), steps, Stamp(t.at, t.move.input));
      RespectedSnoc(cfg, core, Begin(m.me.op), steps, Stamp(t.at, t.move.input));
    } else if HoldsSlot(m.me.pc) {
      OthersKeepOut(cfg, s, t, who);
      assert steps + [] == steps;
    } else {
      var stamp := Others(t.at, Apply(cfg, s, t).core);
      ReplaySnoc(cfg, core, Begin(m.me.op), steps, stamp);
      RespectedSnoc(cfg, core, Begin(m.me.op), steps, stamp);
    }
  }

  // ----- one turn -----

  /** A caller is inside from state e on, up to the tick that leads to state k. */
  predicate Inside(states: seq<State>, who: nat, e: nat, k: nat)
    requires e <= k < |states|
  {
    forall i | e <= i < k :: who < |states[i].members| && HoldsSlot(states[i].members[who].me.pc)
  }

  /** The caller's own steps among the ticks from e up to k. */
  function OwnSteps(ticks: seq<Tick>, who: nat, e: nat, k: nat): seq<Stamp>
    requires e <= k <= |ticks|
  {
    if e == k then []
    else
      OwnSteps(ticks, who, e, k - 1) + OwnStep(ticks[k - 1], who)
  }

  function OwnStep(t: Tick, who: nat): seq<Stamp> {
    if t.move.Act? && t.move.who == who then [Stamp(t.at, t.move.input)] else []
  }

  /** Some steps of its program alone lead a caller from one state to another. */
  predicate Serial(cfg: Config, before: State, after: State, who: nat, steps: seq<Stamp>)
    requires who < |before.members| == |after.members|
  {
    var run := Replay(cfg, before.core, before.members[who].me, steps);
    && run.core == after.core && run.me == after.members[who].me
    && before.members[who].hist + run.hist == after.members[who].hist
  }

  lemma SerialStart(cfg: Config, s: State, who: nat)
    requires who < |s.members|
    ensures Serial(cfg, s, s, who, [])
  {
    assert s.members[who].hist + [] == s.members[who].hist;
  }

  lemma SerialTick(cfg: Config, before: State, s: State, t: Tick, who: nat, steps: seq<Stamp>)
    requires who < |before.members| == |s.members| && Serial(cfg, before, s, who, steps)
    requires OneHolder(s) && Enabled(s, t) && HoldsSlot(s.members[who].me.pc)
    ensures Serial(cfg, before, Apply(cfg, s, t), who, steps + OwnStep(t, who))
  {
    hide Step, Replay;
    if t.move.Act? && t.move.who == who {
      ReplaySnoc(cfg, before.core, before.members[who].me, steps, Stamp(t.at, t.move.input));
      var run := Replay(cfg, before.core, before.members[who].me, steps);
      var heard := Heard(Step(cfg, s.core, s.members[who].me, t.at, t.move.input).said);
      assert (before.members[who].hist + run.hist) + heard == before.members[who].hist + (run.hist + heard);
    } else {
      OthersKeepOut(cfg, s, t, who);
      assert steps + [] == steps;
    }
  }

  /** A turn is serial: between taking and freeing the slot a call is a run of its program from the shared
      state it found, with no step of anybody else. */
  lemma {:induction false} TurnIsReplay(cfg: Config, states: seq<State>, ticks: seq<Tick>, who: nat, e: nat, k: nat)
    requires IsRun(cfg, states, ticks) && e <= k < |states| && who < |states[e].members|
    requires Inside(states, who, e, k)
    ensures |states[k].members| == |states[e].members|
    ensures Serial(cfg, states[e], states[k], who, OwnSteps(ticks, who, e, k))
  {
    hide Step, Serial, Apply, Flood.WindowKept, Flood.LogSafe, AllLawful;
    SameMembers(cfg, states, ticks, e);
    SameMembers(cfg, states, ticks, k);
    if e == k {
      SerialStart(cfg, states[e], who);
    } else {
      TurnIsReplay(cfg, states, ticks, who, e, k - 1);
      Flood.RunSafe(cfg, states, ticks, k - 1);
      assert Enabled(states[k - 1], ticks[k - 1]);
      SerialTick(cfg, states[e], states[k - 1], ticks[k - 1], who, OwnSteps(ticks, who, e, k - 1));
    }
  }
}
