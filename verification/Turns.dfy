/** Any number of callers of one client, step by step in any order, against a server that answers
    whatever it likes. A run is a sequence of states; the clock never goes back. */
module Turns {
  import opened Soap
  import opened Caller
  import opened CallerLaws

  /** The latest request of a caller on the server's side: sent and not taken up, perhaps long after
      the caller gave up on it, or taken up at some time with an answer. */
  datatype Served = Idle | NotServed(request: Request) | Served(at: int, reply: Reply)

  /** A caller, what it has done, and what the server did for it: effects counts the KasApi requests
      whose action the server applied. */
  datatype Member = Member(me: Local, hist: History, served: Served, effects: nat)

  datatype Entry = Entry(who: nat, event: Event)

  /** holder is who has the slot, -1 for nobody; sessions is when the server ends each session; log is
      everything all callers did, in order. */
  datatype State = State(now: int, core: Core, holder: int, members: seq<Member>,
                         sessions: map<string, int>, log: seq<Entry>)

  /** One caller takes a step, or the server takes up a request. */
  datatype Move =
    | Act(who: nat, input: Input)
    | Serve(who: nat, reply: Reply, applied: bool, sessions: map<string, int>)

  datatype Tick = Tick(at: int, move: Move)

  predicate InFlight(pc: Pc) {
    pc.AuthFlight? || pc.ApiFlight?
  }

  /** The clock does not go back, and an answer that arrives is the one the server gave, or is lost. */
  predicate Enabled(s: State, t: Tick) {
    && t.at >= s.now && t.move.who < |s.members|
    && var m := s.members[t.move.who];
       match t.move
       case Act(_, input) =>
         input.Arrived? && InFlight(m.me.pc) ==>
           input.reply.Broken? || (m.served.Served? && m.served.reply == input.reply)
       case Serve(_, _, _, _) => m.served.NotServed?
  }

  function Tagged(who: nat, said: Said): seq<Entry> {
    match said case Silent => [] case Says(e) => [Entry(who, e)]
  }

  function Acted(m: Member, out: Out): Member {
    Member(out.me, m.hist + Heard(out.said),
           if out.said.Says? && out.said.event.Sent? then NotServed(out.said.event.request) else m.served, m.effects)
  }

  function NewHolder(holder: int, who: nat, pc: Pc): int {
    if HoldsSlot(pc) then who else if holder == who then -1 else holder
  }

  function Apply(cfg: Config, s: State, t: Tick): State
    requires Enabled(s, t)
  {
    var m := s.members[t.move.who];
    match t.move
    case Act(who, input) =>
      var out := Step(cfg, s.core, m.me, t.at, input);
      State(t.at, out.core, NewHolder(s.holder, who, out.me.pc), s.members[who := Acted(m, out)],
            s.sessions, s.log + Tagged(who, out.said))
    case Serve(who, reply, applied, sessions) =>
      var effect := if applied && m.served.request.ApiRequest? then 1 else 0;
      s.(now := t.at, sessions := sessions,
         members := s.members[who := m.(served := Served(t.at, reply), effects := m.effects + effect)])
  }

  /** A new client and callers that have not begun. */
  predicate Initial(s: State) {
    && !s.core.busy && s.core.token == "" && s.holder == -1 && s.log == [] && s.sessions == map[]
    && forall i | 0 <= i < |s.members| :: s.members[i] == Member(Begin(s.members[i].me.op), [], Idle, 0)
  }

  ghost predicate IsRun(cfg: Config, states: seq<State>, ticks: seq<Tick>) {
    && |states| == |ticks| + 1 && Initial(states[0])
    && forall i | 0 <= i < |ticks| :: Enabled(states[i], ticks[i]) && states[i + 1] == Apply(cfg, states[i], ticks[i])
  }

  // ----- the laws of every caller -----

  predicate MemberLawful(m: Member, now: int) {
    Ordered(m.hist) && Lawful(m.me, DigestOf(m.hist), now)
  }

  predicate AllLawful(s: State) {
    forall i | 0 <= i < |s.members| :: MemberLawful(s.members[i], s.now)
  }

  lemma AllLawfulApply(cfg: Config, s: State, t: Tick)
    requires AllLawful(s) && Enabled(s, t)
    ensures AllLawful(Apply(cfg, s, t))
  {
    var s' := Apply(cfg, s, t);
    forall i | 0 <= i < |s'.members|
      ensures MemberLawful(s'.members[i], s'.now)
    {
      assert MemberLawful(s.members[i], s.now);
      if t.move.Act? && i == t.move.who {
        MemberStep(cfg, s.core, s.members[i], t.at, t.move.input);
      }
    }
  }

  lemma MemberStep(cfg: Config, core: Core, m: Member, now: int, input: Input)
    requires MemberLawful(m, now)
    ensures MemberLawful(Acted(m, Step(cfg, core, m.me, now, input)), now)
  {
    var d := DigestOf(m.hist);
    StepLaws(cfg, core, m.me, d, now, input);
    var out := Step(cfg, core, m.me, now, input);
    DigestExtend(m.hist, out.said);
    OrderedSnoc(m.hist, out.said);
  }

  // ----- one at a time -----

  /** Exactly the holder is inside its critical section, and the slot is taken exactly when there is one. */
  predicate OneHolder(s: State) {
    && -1 <= s.holder < |s.members|
    && (s.core.busy <==> s.holder != -1)
    && forall i | 0 <= i < |s.members| :: HoldsSlot(s.members[i].me.pc) <==> i == s.holder
  }

  /** Only a caller inside changes the session state; one enters only when the slot is free, and
      takes it, and one that leaves frees it. A caller that is outside and stays outside, such as one
      whose attempt to take the slot fails, does nothing at all. */
  predicate TakesTurns(core: Core, me: Local, out: Out) {
    var inside, inside' := HoldsSlot(me.pc), HoldsSlot(out.me.pc);
    && (!inside && inside' ==> !core.busy && out.core == core.(busy := true))
    && (inside && inside' ==> out.core.busy == core.busy)
    && (inside && !inside' ==> out.core == core.(busy := false))
    && (!inside && !inside' ==> out.core == core)
    && (out.said.Says? ==> inside && inside')
    && out.me.op == me.op
  }

  lemma StepSlot(cfg: Config, core: Core, me: Local, now: int, input: Input)
    ensures TakesTurns(core, me, Step(cfg, core, me, now, input))
  {
    match me.pc
    case Start | Lock | LogoutCheck | Recheck => SlotEnter(cfg, core, me, now, input);
    case Unlock(_) | Relock | Store | Unstore | Leaving(_) | Done(_) => SlotLeave(cfg, core, me, now, input);
    case Ensure | AskPin | AuthWindow(_) | AuthReady(_) | AuthFlight | AuthStore(_) =>
      SlotAuth(cfg, core, me, now, input);
    case _ => SlotApi(cfg, core, me, now, input);
  }

  lemma SlotEnter(cfg: Config, core: Core, me: Local, now: int, input: Input)
    requires me.pc.Start? || me.pc.Lock? || me.pc.LogoutCheck? || me.pc.Recheck?
    ensures TakesTurns(core, me, Step(cfg, core, me, now, input))
  {
  }

  lemma SlotAuth(cfg: Config, core: Core, me: Local, now: int, input: Input)
    requires me.pc.Ensure? || me.pc.AskPin? || me.pc.AuthWindow?
          || me.pc.AuthReady? || me.pc.AuthFlight? || me.pc.AuthStore?
    ensures TakesTurns(core, me, Step(cfg, core, me, now, input))
  {
  }

  lemma SlotApi(cfg: Config, core: Core, me: Local, now: int, input: Input)
    requires me.pc.ApiWindow? || me.pc.ApiReady? || me.pc.ApiFlight?
          || me.pc.ApiFlood? || me.pc.ApiExtend? || me.pc.Returned?
    ensures TakesTurns(core, me, Step(cfg, core, me, now, input))
  {
  }

  lemma SlotLeave(cfg: Config, core: Core, me: Local, now: int, input: Input)
    requires me.pc.Unlock? || me.pc.Relock? || me.pc.Store? || me.pc.Unstore? || me.pc.Leaving? || me.pc.Done?
    ensures TakesTurns(core, me, Step(cfg, core, me, now, input))
  {
  }

  lemma OneHolderApply(cfg: Config, s: State, t: Tick)
    requires OneHolder(s) && Enabled(s, t)
    ensures OneHolder(Apply(cfg, s, t))
  {
    if t.move.Act? {
      StepSlot(cfg, s.core, s.members[t.move.who].me, t.at, t.move.input);
    }
  }
}
