/** What holds of every caller, whatever the server answers, whenever the clock is read and
    whatever other callers do to the shared state between its steps. */
module CallerLaws {
  import opened Soap
  import opened Caller

  // ----- counting -----

  function Count(hist: seq<Event>, p: Event -> bool): nat {
    if hist == [] then 0
    else Count(hist[..|hist| - 1], p) + if p(hist[|hist| - 1]) then 1 else 0
  }

  lemma CountSnoc(hist: seq<Event>, e: Event, p: Event -> bool)
    ensures Count(hist + [e], p) == Count(hist, p) + if p(e) then 1 else 0
  {
    assert (hist + [e])[..|hist|] == hist;
  }

  predicate IsAttempt(e: Event) { e.Attempt? }
  predicate IsSent(e: Event) { e.Sent? }
  predicate IsOpened(e: Event) { e.Opened? }
  predicate IsFloodGrant(e: Event) { e.Granted? && e.retry == RetryFlood }

  function Attempts(hist: seq<Event>): nat { Count(hist, IsAttempt) }
  function Requests(hist: seq<Event>): nat { Count(hist, IsSent) }
  function Handshakes(hist: seq<Event>): nat { Count(hist, IsOpened) }
  function FloodGrants(hist: seq<Event>): nat { Count(hist, IsFloodGrant) }

  lemma CountersSnoc(hist: seq<Event>, e: Event)
    ensures Attempts(hist + [e]) == Attempts(hist) + if e.Attempt? then 1 else 0
    ensures Requests(hist + [e]) == Requests(hist) + if e.Sent? then 1 else 0
    ensures Handshakes(hist + [e]) == Handshakes(hist) + if e.Opened? then 1 else 0
    ensures FloodGrants(hist + [e]) == FloodGrants(hist) + if IsFloodGrant(e) then 1 else 0
  {
    CountSnoc(hist, e, IsAttempt);
    CountSnoc(hist, e, IsSent);
    CountSnoc(hist, e, IsOpened);
    CountSnoc(hist, e, IsFloodGrant);
  }

  /** The retries granted so far. */
  function Retries(me: Local): nat {
    (if me.reauthed then 1 else 0) + me.flood
  }

  // ----- termination -----

  /** Where a caller stands in its call; smaller is later. */
  function PcRank(pc: Pc): nat {
    match pc
    case Start => 20
    case Lock => 19
    case LogoutCheck | Recheck => 18
    case Ensure => 17
    case AskPin => 16
    case AuthWindow(_) => 15
    case AuthReady(_) => 14
    case AuthFlight => 13
    case AuthStore(_) => 12
    case ApiWindow => 11
    case ApiReady => 10
    case ApiFlight => 9
    case ApiFlood(_) => 8
    case ApiExtend(_) => 7
    case Returned(_) => 6
    case Unlock(_) => 5
    case Relock => 4
    case Store => 3
    case Unstore => 2
    case Leaving(_) => 1
    case Done(_) => 0
  }

  /** What is left to do: the retries not yet granted, then the rest of the call. */
  function Rank(me: Local): int {
    ((if me.reauthed then 0 else 1) + (MAX_FLOOD_RETRIES - me.flood)) * 21 + PcRank(me.pc)
  }

  /** Nothing changed, or the call is nearer to its end. */
  predicate Forward(me: Local, me': Local) {
    me' == me || (me'.op == me.op && 0 <= Rank(me') < Rank(me))
  }

  // ----- attempts and requests -----

  /** The requests the current attempt may have sent: none, KasAuth, or KasApi as well. */
  function Allowance(pc: Pc): nat {
    if PcRank(pc) > 13 then 0 else if PcRank(pc) > 9 then 1 else 2
  }

  predicate Begun(pc: Pc) {
    PcRank(pc) < 17
  }

  /** Every step that changes a caller brings it nearer to its end: a call takes at most
      Rank(Begin(op)) = 104 steps that are not waiting, whatever the server answers. */
  lemma StepForward(cfg: Config, core: Core, me: Local, now: int, input: Input)
    requires me.flood <= MAX_FLOOD_RETRIES
    ensures Forward(me, Step(cfg, core, me, now, input).me)
  {
    if me.pc.Start? || me.pc.Lock? || me.pc.LogoutCheck? || me.pc.Recheck? || me.pc.Ensure? || me.pc.AskPin? || me.pc.AuthWindow? {
      ForwardIn(cfg, core, me, now, input);
    } else if me.pc.AuthReady? || me.pc.AuthFlight? || me.pc.AuthStore? || me.pc.ApiWindow? || me.pc.ApiReady? || me.pc.ApiFlight? {
      ForwardRequest(cfg, core, me, now, input);
    } else if me.pc.ApiFlood? || me.pc.ApiExtend? || me.pc.Returned? {
      ForwardAnswer(cfg, core, me, now, input);
    } else {
      ForwardOut(cfg, core, me, now, input);
    }
  }

  lemma ForwardIn(cfg: Config, core: Core, me: Local, now: int, input: Input)
    requires me.flood <= MAX_FLOOD_RETRIES
    requires me.pc.Start? || me.pc.Lock? || me.pc.LogoutCheck? || me.pc.Recheck?
          || me.pc.Ensure? || me.pc.AskPin? || me.pc.AuthWindow?
    ensures Forward(me, Step(cfg, core, me, now, input).me)
  {
  }

  lemma ForwardRequest(cfg: Config, core: Core, me: Local, now: int, input: Input)
    requires me.flood <= MAX_FLOOD_RETRIES
    requires me.pc.AuthReady? || me.pc.AuthFlight? || me.pc.AuthStore?
          || me.pc.ApiWindow? || me.pc.ApiReady? || me.pc.ApiFlight?
    ensures Forward(me, Step(cfg, core, me, now, input).me)
  {
  }

  lemma ForwardAnswer(cfg: Config, core: Core, me: Local, now: int, input: Input)
    requires me.flood <= MAX_FLOOD_RETRIES
    requires me.pc.ApiFlood? || me.pc.ApiExtend? || me.pc.Returned?
    ensures Forward(me, Step(cfg, core, me, now, input).me)
  {
  }

  lemma ForwardOut(cfg: Config, core: Core, me: Local, now: int, input: Input)
    requires me.pc.Unlock? || me.pc.Relock? || me.pc.Store? || me.pc.Unstore? || me.pc.Leaving? || me.pc.Done?
    requires me.flood <= MAX_FLOOD_RETRIES
    ensures Forward(me, Step(cfg, core, me, now, input).me)
  {
  }

  // ----- which answers are final -----

  predicate RetryableCode(code: string) {
    code == FLOOD_PROTECTION || IsSessionError(code)
  }

  /** An answer after which the call does nothing more: every KasApi answer but a flood or session
      fault, and every KasAuth answer but a value or a flood fault. */
  predicate Final(e: Event) {
    e.Answered? &&
    match e.reply
    case Broken => true
    case Decoded(_) => !e.auth
    case Fault(code) => if e.auth then code != FLOOD_PROTECTION else !RetryableCode(code)
  }

  /** The call has got past its last attempt. */
  predicate Finishing(pc: Pc) {
    || pc.ApiFlood? || pc.ApiExtend?
    || (pc.Returned? && (pc.result.Ok? || RetryOf(pc.result.error) == RetryNone))
    || pc.Unlock? || pc.Relock? || pc.Store? || pc.Unstore? || pc.Leaving? || pc.Done?
  }

  predicate IsAuth(r: Request) {
    r.AuthRequest?
  }

  /** What the laws need to know of a history: the counts and the last event. */
  datatype Digest = Digest(attempts: nat, requests: nat, grants: nat, last: Said)

  function DigestOf(h: History): Digest {
    Digest(Attempts(h), Requests(h), FloodGrants(h), if h == [] then Silent else Says(h[|h| - 1]))
  }

  function Extend(d: Digest, said: Said): Digest {
    if said.Silent? then d
    else
      var e := said.event;
      Digest(d.attempts + (if e.Attempt? then 1 else 0), d.requests + (if e.Sent? then 1 else 0),
             d.grants + (if IsFloodGrant(e) then 1 else 0), said)
  }

  lemma DigestExtend(h: History, said: Said)
    ensures DigestOf(h + Heard(said)) == Extend(DigestOf(h), said)
  {
    match said
    case Silent => assert h + [] == h;
    case Says(e) => CountersSnoc(h, e);
  }

  /** An attempt is one pass through execLocked: there is one more than retries granted, and each
      sends at most a KasAuth and a KasApi request. */
  predicate Bounded(me: Local, d: Digest) {
    && me.flood <= MAX_FLOOD_RETRIES
    && d.grants == me.flood
    && d.attempts <= Retries(me) + (if Begun(me.pc) then 1 else 0)
    && d.requests <= 2 * Retries(me) + Allowance(me.pc)
    && (me.op.Logout? ==> Retries(me) == 0 && !me.pc.Recheck?)
    && (me.pc.Start? || me.pc.Lock? ==> Retries(me) == 0 && d.last.Silent?)
  }

  /** How the last event fits the program point. */
  predicate Fits(pc: Pc, last: Said) {
    && (last.Says? && last.event.Sent? ==> if IsAuth(last.event.request) then pc.AuthFlight? else pc.ApiFlight?)
    && (pc.AuthFlight? ==> last.Says? && last.event.Sent? && IsAuth(last.event.request))
    && (pc.ApiFlight? ==> last.Says? && last.event.Sent? && !IsAuth(last.event.request))
    && (last.Says? && Final(last.event) ==> Finishing(pc))
    && (pc.Returned? && pc.result.Failed? && RetryOf(pc.result.error) != RetryNone ==>
          last.Says? && FaultFor(last.event, pc.result.error))
  }

  /** The answer that made execLocked return an error that is retried. */
  predicate FaultFor(e: Event, error: Error) {
    && e.Answered? && e.reply.Fault? && FaultOf(error) == Code(e.reply.code)
    && (RetryOf(error) == RetrySession ==> !e.auth)
  }

  /** e may follow the last event. */
  predicate MayFollow(d: Digest, e: Event) {
    && (d.last.Says? ==> !Final(d.last.event) && d.last.event.at <= e.at)
    && (d.last.Says? && d.last.event.Sent? ==> e.Answered? && e.auth == IsAuth(d.last.event.request))
    && (e.Answered? ==> d.last.Says? && d.last.event.Sent?)
    && (e.Granted? ==> d.last.Says? && GrantedFor(d.last.event, e, d.grants))
  }

  predicate GrantedFor(fault: Event, e: Event, before: nat)
    requires e.Granted?
  {
    && fault.Answered? && fault.reply.Fault? && fault.at <= e.at
    && (e.retry == RetryFlood ==> fault.reply.code == FLOOD_PROTECTION && e.nth == before + 1)
    && (e.retry == RetrySession ==> !fault.auth && IsSessionError(fault.reply.code))
  }

  /** An answer and its request follow each other directly; a final answer is the last event; every retry
      follows directly on the fault it is for, and flood retries are numbered. */
  predicate Ordered(h: History) {
    forall p | 0 <= p < |h| :: MayFollow(DigestOf(h[..p]), h[p])
  }

  lemma OrderedSnoc(h: History, said: Said)
    requires Ordered(h) && (said.Says? ==> MayFollow(DigestOf(h), said.event))
    ensures Ordered(h + Heard(said))
  {
    var h' := h + Heard(said);
    forall p | 0 <= p < |h'|
      ensures MayFollow(DigestOf(h'[..p]), h'[p])
    {
      assert h'[..p] == h[..p];
      assert h[..|h|] == h;
    }
  }

  /** All that holds of a caller with a digest at a time. */
  predicate Lawful(me: Local, d: Digest, now: int) {
    && Bounded(me, d) && Fits(me.pc, d.last)
    && (d.last.Says? ==> d.last.event.at <= now)
  }

  /** A step keeps the laws. */
  predicate Good(me: Local, d: Digest, now: int, out: Out) {
    && Lawful(out.me, Extend(d, out.said), now)
    && (out.said.Says? ==> MayFollow(d, out.said.event) && out.said.event.at == now)
  }

  lemma EnterLaws(core: Core, me: Local, d: Digest, now: int, input: Input)
    requires Lawful(me, d, now) && (me.pc.Start? || me.pc.Lock? || me.pc.LogoutCheck? || me.pc.Recheck?)
    ensures Good(me, d, now, StepEnter(core, me, now, input))
  {
  }

  lemma EnsureLaws(cfg: Config, core: Core, me: Local, d: Digest, now: int, input: Input)
    requires Lawful(me, d, now) && me.pc.Ensure?
    ensures Good(me, d, now, StepSession(cfg, core, me, now, input))
  {
  }

  lemma PinLaws(cfg: Config, core: Core, me: Local, d: Digest, now: int, input: Input)
    requires Lawful(me, d, now) && (me.pc.AskPin? || me.pc.AuthWindow?)
    ensures Good(me, d, now, StepSession(cfg, core, me, now, input))
  {
  }

  lemma HandshakeLaws(cfg: Config, core: Core, me: Local, d: Digest, now: int, input: Input)
    requires Lawful(me, d, now) && me.pc.AuthReady?
    ensures Good(me, d, now, StepOpen(cfg, core, me, now, input))
  {
  }

  lemma HandshakeAnswerLaws(cfg: Config, core: Core, me: Local, d: Digest, now: int, input: Input)
    requires Lawful(me, d, now) && me.pc.AuthFlight?
    ensures Good(me, d, now, StepOpen(cfg, core, me, now, input))
  {
  }

  lemma OpenedLaws(cfg: Config, core: Core, me: Local, d: Digest, now: int, input: Input)
    requires Lawful(me, d, now) && me.pc.AuthStore?
    ensures Good(me, d, now, StepOpen(cfg, core, me, now, input))
  {
  }

  lemma WindowLaws(core: Core, me: Local, d: Digest, now: int, input: Input)
    requires Lawful(me, d, now) && me.pc.ApiWindow?
    ensures Good(me, d, now, StepCall(core, me, now, input))
  {
  }

  lemma CallLaws(core: Core, me: Local, d: Digest, now: int, input: Input)
    requires Lawful(me, d, now) && me.pc.ApiReady?
    ensures Good(me, d, now, StepCall(core, me, now, input))
  {
  }

  lemma FlightLaws(core: Core, me: Local, d: Digest, now: int, input: Input)
    requires Lawful(me, d, now) && me.pc.ApiFlight?
    ensures Good(me, d, now, StepCall(core, me, now, input))
  {
    hide ApiCall;
  }

  lemma AnswerLaws(cfg: Config, core: Core, me: Local, d: Digest, now: int, input: Input)
    requires Lawful(me, d, now) && (me.pc.ApiFlood? || me.pc.ApiExtend?)
    ensures Good(me, d, now, StepAnswer(cfg, core, me, now, input))
  {
  }

  lemma SettleLaws(core: Core, me: Local, d: Digest, now: int, result: Result)
    requires Lawful(me, d, now) && me.pc == Returned(result)
    ensures Good(me, d, now, Settle(core, me, now, result))
  {
  }

  lemma LeaveLaws(core: Core, me: Local, d: Digest, now: int, input: Input)
    requires Lawful(me, d, now)
    requires me.pc.Unlock? || me.pc.Relock? || me.pc.Store? || me.pc.Unstore? || me.pc.Leaving? || me.pc.Done?
    ensures Good(me, d, now, StepLeave(core, me, input))
  {
  }

  lemma StepLaws(cfg: Config, core: Core, me: Local, d: Digest, now: int, input: Input)
    requires Lawful(me, d, now)
    ensures Good(me, d, now, Step(cfg, core, me, now, input))
  {
    match me.pc
    case Start | Lock | LogoutCheck | Recheck => EnterLaws(core, me, d, now, input);
    case Ensure => EnsureLaws(cfg, core, me, d, now, input);
    case AskPin | AuthWindow(_) => PinLaws(cfg, core, me, d, now, input);
    case AuthReady(_) => HandshakeLaws(cfg, core, me, d, now, input);
    case AuthFlight => HandshakeAnswerLaws(cfg, core, me, d, now, input);
    case AuthStore(_) => OpenedLaws(cfg, core, me, d, now, input);
    case ApiWindow => WindowLaws(core, me, d, now, input);
    case ApiReady => CallLaws(core, me, d, now, input);
    case ApiFlight => FlightLaws(core, me, d, now, input);
    case ApiFlood(_) | ApiExtend(_) => AnswerLaws(cfg, core, me, d, now, input);
    case Returned(result) => SettleLaws(core, me, d, now, result);
    case _ => LeaveLaws(core, me, d, now, input);
  }

  // ----- what the laws say of a history -----

  /** At most five attempts and ten requests; a Logout makes one attempt, with at most two requests. */
  lemma CallBounds(me: Local, d: Digest, now: int)
    requires Lawful(me, d, now)
    ensures d.attempts <= 5 && d.requests <= 10
    ensures me.op.Logout? ==> d.attempts <= 1 && d.requests <= 2
  {
  }

  /** Nothing follows a final answer: in particular a KasAuth fault other than flood protection ends
      the call without a further request, even when its code is one of the session codes. */
  lemma FinalEnds(h: History, p: nat)
    requires Ordered(h) && p + 1 < |h|
    ensures !Final(h[p])
  {
    assert MayFollow(DigestOf(h[..p + 1]), h[p + 1]);
  }

  /** Every request is followed at once by its answer, and every request but the last one by an
      answer that is not final; a KasApi request by a flood or session fault. */
  lemma RequestsBeforeLast(h: History, p: nat, q: nat)
    requires Ordered(h) && p < q < |h| && h[p].Sent? && h[q].Sent?
    ensures p + 1 < q
    ensures h[p + 1].Answered? && h[p + 1].auth == IsAuth(h[p].request)
    ensures !IsAuth(h[p].request) ==> h[p + 1].reply.Fault? && RetryableCode(h[p + 1].reply.code)
  {
    assert MayFollow(DigestOf(h[..p + 1]), h[p + 1]);
    FinalEnds(h, p + 1);
  }

  /** The k-th flood retry follows at once on a flood fault and is the k-th. */
  lemma GrantFollowsFault(h: History, p: nat)
    requires Ordered(h) && p < |h| && h[p].Granted? && h[p].retry == RetryFlood
    ensures p > 0 && h[p - 1].Answered? && h[p - 1].reply == Fault(FLOOD_PROTECTION) && h[p - 1].at <= h[p].at
    ensures h[p].nth == FloodGrants(h[..p]) + 1
  {
    assert MayFollow(DigestOf(h[..p]), h[p]);
  }
}
