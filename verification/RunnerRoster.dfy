/** Steps answered by a roster of nodes: who was seen, when it is enough, who is reported missing. */
module RunnerRoster {
  import opened Frames
  import opened MachineWords
  import opened StepCodec
  import opened AgentRules
  import opened TransactionRunner
  import opened RunnerRuns
  import I = IsotpLink
  import B = TransactionBuilder

  predicate IsDistinct(nodes: seq<W32>) {
    forall i, j | 0 <= i < j < |nodes| :: nodes[i] != nodes[j]
  }

  /** The frame is the answer of the node listed at index i. */
  predicate IsAnswerOf(s: Runner, f: Frame, i: nat) {
    && i < |Nodes(s.defs)| && Nodes(s.defs)[i] == ExtractOrigin(s.defs, f)
    && VerdictOn(s, f) == Advances
  }

  // ---------- what a waiting step hears ----------

  /*
    Beside a run of the agent goes the record of the frames the step now waiting has
    been shown while its quorum was not met, from the moment it began to wait.
   */

  /** A frame replayed to the step that has begun to wait. */
  function HearReplayed(): (Runner, Option<(Frame, bool)>, seq<Frame>) -> seq<Frame> {
    (s: Runner, x: Option<(Frame, bool)>, heard: seq<Frame>) =>
      if Running(s) && x.Some? && IsWaiting(s) then heard + [x.value.0] else heard
  }

  /** As Repeat, for what is heard on the way. */
  function HearAll<A>(
    pass: (Runner, Option<A>) -> Result, hear: (Runner, Option<A>, seq<Frame>) -> seq<Frame>,
    s: Runner, budget: nat, answers: seq<A>, heard: seq<Frame>): seq<Frame>
    decreases budget
  {
    if budget == 0 then heard
    else
      var first, more := pass(s, Head(answers)), hear(s, Head(answers), heard);
      if !first.next.active || !first.again then more
      else HearAll(pass, hear, first.next, budget - 1, Tail(answers), more)
  }

  /** A step that begins to wait has heard nothing, but for the early frames replayed to one that only expects. */
  function HearPass(now: nat): (Runner, Option<Answers>, seq<Frame>) -> seq<Frame> {
    (s: Runner, a: Option<Answers>, heard: seq<Frame>) =>
      if !Running(s) || s.current.phase == Wait then heard
      else if s.current.phase == Idle && s.ledger.queue != [] && s.ledger.queue[0].expectOnly && StartsWaiting(s) then
        var oks := if a.Some? then a.value.oks else [];
        HearAll(Replayer(), HearReplayed(), Waiting(s, now), |s.early|, WithAnswers(s.early, oks), [])
      else []
  }

  predicate StartsWaiting(s: Runner)
    requires Running(s) && s.ledger.queue != []
  {
    CanWait(Opened(Loaded(s)))
  }

  /** The state in which an expect-only step is shown the early frames. */
  function Waiting(s: Runner, now: nat): Runner
    requires Running(s) && s.ledger.queue != [] && StartsWaiting(s)
  {
    StartWait(Opened(Loaded(s)), now).(early := [])
  }

  function HearCall(s: Runner, c: Call, heard: seq<Frame>): seq<Frame> {
    match c
    case FrameCall(interfaceIndex, f, _) =>
      if s.active && interfaceIndex == s.session.interfaceIndex && !f.echo && IsWaiting(s) then heard + [f] else heard
    case TickCall(now, answers) =>
      if s.active then HearAll(Pass(now), HearPass(now), s.(lastTickUs := now), StepsPerTick(), answers, heard) else heard
    case _ => heard
  }

  /** The frames heard by the step that waits after the calls. */
  function HearRun(apply: (Runner, Call) -> Result, s: Runner, calls: seq<Call>, heard: seq<Frame>): seq<Frame>
    decreases |calls|
  {
    if calls == [] then heard
    else HearRun(apply, apply(s, calls[0]).next, calls[1..], HearCall(s, calls[0], heard))
  }

  // ---------- the bitmap is who answered ----------

  ghost predicate Answered(s: Runner, heard: seq<Frame>, i: nat) {
    exists f | f in heard :: IsAnswerOf(s, f, i)
  }

  predicate AwaitsRoster(s: Runner) {
    s.active && s.current.phase == Wait && IsRosterMode(CurrentTemplate(s).mode)
  }

  /** In a roster step that waits, exactly the nodes that answered are seen, each at its first place in the roster. */
  ghost predicate SeenIsHeard(s: Runner, heard: seq<Frame>) {
    AwaitsRoster(s) ==> forall i: nat :: i in s.current.seen <==> IsFirst(Nodes(s.defs), i) && Answered(s, heard, i)
  }

  lemma AnsweredGrows(s: Runner, heard: seq<Frame>, f: Frame, i: nat)
    ensures Answered(s, heard + [f], i) <==> Answered(s, heard, i) || IsAnswerOf(s, f, i)
  {
    if Answered(s, heard, i) {
      var g :| g in heard && IsAnswerOf(s, g, i);
      assert g in heard + [f];
    }
    assert f in heard + [f];
  }

  predicate SameStepWaits(s: Runner, n: Runner) {
    n.defs.roster == s.defs.roster && n.current.step == s.current.step && CurrentTemplate(n) == CurrentTemplate(s)
  }

  lemma SameQuestion(s: Runner, n: Runner, heard: seq<Frame>, i: nat)
    requires SameStepWaits(s, n)
    ensures Answered(n, heard, i) <==> Answered(s, heard, i)
  {
    assert forall f :: IsAnswerOf(n, f, i) <==> IsAnswerOf(s, f, i);
  }

  lemma FindsTheFirst(nodes: seq<W32>, origin: W32, i: nat)
    ensures FindNode(nodes, origin) == Some(i) <==> IsFirst(nodes, i) && nodes[i] == origin
  {
  }

  /** The frame comes from the node that index i is the first to list. */
  predicate ComesFrom(s: Runner, f: Frame, i: nat) {
    IsFirst(Nodes(s.defs), i) && Nodes(s.defs)[i] == ExtractOrigin(s.defs, f)
  }

  lemma RecordedIsSeen(s: Runner, f: Frame, i: nat)
    requires Running(s) && IsWaiting(s) && CurrentTemplate(s).mode != MODE_COUNT
    ensures i in RecordRosterAnswer(s, f).current.seen <==>
      i in s.current.seen || ComesFrom(s, f, i)
  {
    FindsTheFirst(Nodes(s.defs), ExtractOrigin(s.defs, f), i);
  }

  /** What a frame adds to the bitmap of a roster step that goes on. */
  predicate Sees(s: Runner, f: Frame, n: Runner, i: nat) {
    n.active ==>
      && n.defs == s.defs && n.current.step == s.current.step && n.current.phase == Wait
      && (i in n.current.seen <==> i in s.current.seen || (IsFirst(Nodes(s.defs), i) && IsAnswerOf(s, f, i)))
  }

  lemma AnswerIsSeen(s: Runner, f: Frame, i: nat)
    requires Running(s) && IsWaiting(s) && IsRosterMode(CurrentTemplate(s).mode)
    ensures i in RecordAnswer(s, f).current.seen <==> i in s.current.seen || ComesFrom(s, f, i)
  {
    RecordedIsSeen(s.(current := s.current.(rx := Some(RxOf(f)))), f, i);
  }

  lemma OtherVerdictsSeeNothing(s: Runner, f: Frame, verdict: Verdict, expected: W64, got: W64)
    requires Running(s) && IsWaiting(s) && verdict != Advances
    ensures var n := Act(s, f, verdict, expected, got).next;
      n.active ==> n.defs == s.defs && SameStep(s.current, n.current) && n.current.seen == s.current.seen
  {
  }

  lemma ActSees(s: Runner, f: Frame, verdict: Verdict, expected: W64, got: W64, i: nat)
    requires Running(s) && IsWaiting(s) && IsRosterMode(CurrentTemplate(s).mode)
    ensures var n := Act(s, f, verdict, expected, got).next;
      n.active ==>
        && n.defs == s.defs && n.current.step == s.current.step && n.current.phase == Wait
        && (i in n.current.seen <==> i in s.current.seen || (verdict == Advances && ComesFrom(s, f, i)))
  {
    if verdict == Advances {
      AnswerIsSeen(s, f, i);
      assert Act(s, f, verdict, expected, got).next == RecordAnswer(s, f);
    } else {
      OtherVerdictsSeeNothing(s, f, verdict, expected, got);
    }
  }

  lemma MatchSees(s: Runner, f: Frame, i: nat)
    requires Running(s) && IsWaiting(s) && IsRosterMode(CurrentTemplate(s).mode)
    ensures Sees(s, f, MatchFrame(s, f).next, i)
  {
    ActSees(s, f, VerdictOn(s, f), Expected(s), PayloadWord(f.payload), i);
  }

  /** A step that waits for a roster is no ISO-TP step. */
  lemma RosterIsPlain(s: Runner)
    requires Running(s) && s.current.phase != Idle && IsRosterMode(CurrentTemplate(s).mode)
    ensures !IsIsotpStep(s)
  {
    FrontAccepted(s);
  }

  /** The frame has been shown to the step. */
  ghost predicate Shown(s: Runner, f: Frame, n: Runner) {
    if IsWaiting(s) && IsRosterMode(CurrentTemplate(s).mode) then forall i: nat :: Sees(s, f, n, i)
    else n.active ==> n.current.phase == s.current.phase && SameAnswers(s, n)
  }

  predicate SameAnswers(s: Runner, n: Runner) {
    && n.defs == s.defs && n.current.step == s.current.step
    && (IsRosterMode(CurrentTemplate(s).mode) ==> n.current.seen == s.current.seen)
  }

  lemma DispatchShows(s: Runner, f: Frame, ok: bool)
    requires Running(s)
    ensures Shown(s, f, DispatchFrame(s, f, ok).next)
  {
    if s.current.phase != Idle && IsRosterMode(CurrentTemplate(s).mode) {
      RosterIsPlain(s);
      if IsWaiting(s) {
        forall i: nat ensures Sees(s, f, MatchFrame(s, f).next, i) {
          MatchSees(s, f, i);
        }
      }
    }
  }

  lemma ShownIsHeard(s: Runner, f: Frame, n: Runner, heard: seq<Frame>)
    requires s.active && Shown(s, f, n) && SeenIsHeard(s, heard)
    ensures SeenIsHeard(n, if IsWaiting(s) then heard + [f] else heard)
  {
    if n.active && n.current.phase == Wait && IsRosterMode(CurrentTemplate(n).mode) {
      forall i: nat
        ensures i in n.current.seen <==>
          IsFirst(Nodes(n.defs), i) && Answered(n, if IsWaiting(s) then heard + [f] else heard, i)
      {
        AnsweredGrows(s, heard, f, i);
        if IsWaiting(s) {
          assert Sees(s, f, n, i);
        }
        SameQuestion(s, n, if IsWaiting(s) then heard + [f] else heard, i);
      }
    }
  }

  lemma {:induction false} HearAllKeeps<A(!new)>(
    told: (Runner, seq<Frame>) -> bool, ready: Runner -> bool,
    pass: (Runner, Option<A>) -> Result, hear: (Runner, Option<A>, seq<Frame>) -> seq<Frame>,
    s: Runner, budget: nat, answers: seq<A>, heard: seq<Frame>)
    requires forall x, a, h | ready(x) && told(x, h) :: told(pass(x, a).next, hear(x, a, h))
    requires forall x, a | ready(x) && pass(x, a).next.active :: ready(pass(x, a).next)
    requires ready(s) && told(s, heard)
    ensures told(Repeat(pass, s, budget, answers).next, HearAll(pass, hear, s, budget, answers, heard))
    decreases budget
  {
    if budget > 0 {
      var first, more := pass(s, Head(answers)), hear(s, Head(answers), heard);
      if first.next.active && first.again {
        HearAllKeeps(told, ready, pass, hear, first.next, budget - 1, Tail(answers), more);
      }
    }
  }

  ghost function Told(): (Runner, seq<Frame>) -> bool {
    (s: Runner, heard: seq<Frame>) => SeenIsHeard(s, heard)
  }

  lemma ReplayedIsHeard(s: Runner, x: Option<(Frame, bool)>, heard: seq<Frame>)
    requires Running(s) && SeenIsHeard(s, heard)
    ensures SeenIsHeard(Replayer()(s, x).next, HearReplayed()(s, x, heard))
  {
    if x.Some? {
      DispatchShows(s, x.value.0, x.value.1);
      ShownIsHeard(s, x.value.0, DispatchFrame(s, x.value.0, x.value.1).next, heard);
    }
  }

  lemma ReplayIsHeard(s: Runner, frames: seq<Frame>, oks: seq<bool>)
    requires Running(s) && SeenIsHeard(s, [])
    ensures SeenIsHeard(ReplayFrames(s, frames, oks).next,
                        HearAll(Replayer(), HearReplayed(), s, |frames|, WithAnswers(frames, oks), []))
  {
    forall x, a, h | Running(x) && Told()(x, h) ensures Told()(Replayer()(x, a).next, HearReplayed()(x, a, h)) {
      ReplayedIsHeard(x, a, h);
    }
    forall x, a | Running(x) && Replayer()(x, a).next.active ensures Running(Replayer()(x, a).next) {
      ReplayerKeeps(x, a);
    }
    HearAllKeeps(Told(), Running, Replayer(), HearReplayed(), s, |frames|, WithAnswers(frames, oks), []);
  }

  /** Nothing seen, nothing heard. */
  lemma FreshIsHeard(s: Runner)
    requires s.current.seen == {} || s.current.phase != Wait || !s.active
    ensures SeenIsHeard(s, [])
  {
  }

  lemma LoadIsHeard(s: Runner, now: nat, a: Answers, o: Option<Answers>)
    requires Running(s) && s.current.phase == Idle && a == (if o.Some? then o.value else NO_ANSWERS)
    ensures SeenIsHeard(LoadNextStep(s, now, a).next, HearPass(now)(s, o, []))
  {
    if s.ledger.queue != [] {
      FrontAccepted(s);
      if s.ledger.queue[0].expectOnly {
        assert StartsWaiting(s);
        FreshIsHeard(Waiting(s, now));
        ReplayIsHeard(Waiting(s, now), s.early, a.oks);
      } else {
        FreshIsHeard(LoadNextStep(s, now, a).next);
      }
    }
  }

  lemma TransmitIsHeard(s: Runner, now: nat, a: Answers)
    requires Running(s) && s.current.phase == Transmit
    ensures SeenIsHeard(TransmitStep(s, now, a).next, [])
  {
    TransmitSeesNone(s, now, a);
    FreshIsHeard(TransmitStep(s, now, a).next);
  }

  /** A step that is transmitted has seen nothing when it begins to wait. */
  lemma TransmitSeesNone(s: Runner, now: nat, a: Answers)
    requires Running(s) && s.current.phase == Transmit
    ensures TransmitStep(s, now, a).next.current.seen == {}
  {
    if IsIsotpStep(s) {
      var started := StartedMessage(s, now);
      MessageSeesNone(started, I.Tick(started.link, now, a.ok, a.oks), now);
    } else {
      FrontAccepted(s);
    }
  }

  lemma MessageSeesNone(s: Runner, o: I.Out, now: nat)
    requires Running(s) && s.current.phase == Transmit && I.LinkOk(o.link)
    ensures MessageOutcome(s, o, now).next.current.seen == {}
  {
  }

  /** Settling leaves the answers as they are. */
  lemma SettleStartsNoWait(s: Runner, now: nat, a: Answers)
    requires Running(s) && s.current.phase == Wait && !AwaitsRoster(s)
    ensures !AwaitsRoster(SettleWait(s, now, a).next)
  {
    if IsIsotpStep(s) {
      WaitSameStep(s, I.Tick(s.link, now, a.ok, a.oks), now);
    }
  }

  lemma PlainSettleIsHeard(s: Runner, now: nat, heard: seq<Frame>)
    requires Running(s) && s.current.phase == Wait && SeenIsHeard(s, heard)
    ensures SeenIsHeard(Settle(s, now).next, heard)
  {
    StillHeard(s, Settle(s, now).next, heard);
  }

  lemma SettleIsHeard(s: Runner, now: nat, a: Answers, heard: seq<Frame>)
    requires Running(s) && s.current.phase == Wait && SeenIsHeard(s, heard)
    ensures SeenIsHeard(SettleWait(s, now, a).next, heard)
  {
    if IsRosterMode(CurrentTemplate(s).mode) {
      RosterIsPlain(s);
      PlainSettleIsHeard(s, now, heard);
    } else {
      SettleStartsNoWait(s, now, a);
    }
  }

  lemma WaitSameStep(s: Runner, o: I.Out, now: nat)
    requires Running(s) && s.current.phase == Wait && I.LinkOk(o.link)
    ensures var n := WaitOutcome(s, o, now).next; n.defs == s.defs && n.current.step == s.current.step
  {
  }

  lemma StillHeard(s: Runner, n: Runner, heard: seq<Frame>)
    requires s.active && s.current.phase == Wait && SeenIsHeard(s, heard)
    requires n.active && n.current.phase == Wait ==> SameStepWaits(s, n) && n.current.seen == s.current.seen
    ensures SeenIsHeard(n, heard)
  {
    forall i: nat | SameStepWaits(s, n)
      ensures Answered(n, heard, i) <==> Answered(s, heard, i)
    {
      SameQuestion(s, n, heard, i);
    }
  }

  lemma PassIsHeard(s: Runner, now: nat, a: Option<Answers>, heard: seq<Frame>)
    requires Running(s) && SeenIsHeard(s, heard)
    ensures SeenIsHeard(Pass(now)(s, a).next, HearPass(now)(s, a, heard))
  {
    var answers := if a.Some? then a.value else NO_ANSWERS;
    match s.current.phase
    case Idle => LoadIsHeard(s, now, answers, a);
    case Transmit => TransmitIsHeard(s, now, answers);
    case Wait => SettleIsHeard(s, now, answers, heard);
  }

  lemma PassesAreHeard(s: Runner, now: nat, answers: seq<Answers>, heard: seq<Frame>)
    requires Running(s) && SeenIsHeard(s, heard)
    ensures SeenIsHeard(Repeat(Pass(now), s, StepsPerTick(), answers).next,
                        HearAll(Pass(now), HearPass(now), s, StepsPerTick(), answers, heard))
  {
    forall x, a, h | Running(x) && Told()(x, h) ensures Told()(Pass(now)(x, a).next, HearPass(now)(x, a, h)) {
      PassIsHeard(x, now, a, h);
    }
    HearAllKeeps(Told(), Running, Pass(now), HearPass(now), s, StepsPerTick(), answers, heard);
  }

  lemma TickIsHeard(s: Runner, now: nat, answers: seq<Answers>, heard: seq<Frame>)
    requires Running(s) && SeenIsHeard(s, heard)
    ensures SeenIsHeard(Tick(s, now, answers).next, HearCall(s, TickCall(now, answers), heard))
  {
    var timed := s.(lastTickUs := now);
    var run := Repeat(Pass(now), timed, StepsPerTick(), answers);
    var more := HearAll(Pass(now), HearPass(now), timed, StepsPerTick(), answers, heard);
    TimedIsHeard(s, now, heard);
    PassesAreHeard(timed, now, answers, heard);
    if run.next.active {
      FlushIsHeard(run.next, now, more);
    }
    TickTold(Told(), s, now, answers, heard);
  }

  lemma TickTold(told: (Runner, seq<Frame>) -> bool, s: Runner, now: nat, answers: seq<Answers>, heard: seq<Frame>)
    requires Running(s)
    requires var run := Repeat(Pass(now), s.(lastTickUs := now), StepsPerTick(), answers);
      var more := HearAll(Pass(now), HearPass(now), s.(lastTickUs := now), StepsPerTick(), answers, heard);
      told(run.next, more) && (run.next.active ==> told(Flushed(run.next, now).next, more))
    ensures told(Tick(s, now, answers).next, HearCall(s, TickCall(now, answers), heard))
  {
    TickNext(s, now, answers);
  }

  /** The passes of a tick, then its progress report. */
  lemma TickNext(s: Runner, now: nat, answers: seq<Answers>)
    requires Running(s)
    ensures var run := Repeat(Pass(now), s.(lastTickUs := now), StepsPerTick(), answers);
      && Tick(s, now, answers).next == (if run.next.active then Flushed(run.next, now).next else run.next)
      && Tick(s, now, answers).outputs == run.outputs + if run.next.active then Flushed(run.next, now).outputs else []
  {
    var run := Repeat(Pass(now), s.(lastTickUs := now), StepsPerTick(), answers);
    assert run.outputs + [] == run.outputs;
  }

  lemma TimedIsHeard(s: Runner, now: nat, heard: seq<Frame>)
    requires s.active && SeenIsHeard(s, heard)
    ensures SeenIsHeard(s.(lastTickUs := now), heard)
  {
    if s.current.phase == Wait {
      StillHeard(s, s.(lastTickUs := now), heard);
    }
  }

  lemma FlushIsHeard(s: Runner, now: nat, heard: seq<Frame>)
    requires s.active && SeenIsHeard(s, heard)
    ensures SeenIsHeard(Flushed(s, now).next, heard)
  {
    if s.current.phase == Wait {
      StillHeard(s, Flushed(s, now).next, heard);
    }
  }

  lemma FrameIsHeard(s: Runner, interfaceIndex: u8, f: Frame, ok: bool, heard: seq<Frame>)
    requires Running(s) && SeenIsHeard(s, heard)
    ensures SeenIsHeard(OnFrame(s, interfaceIndex, f, ok).next, HearCall(s, FrameCall(interfaceIndex, f, ok), heard))
  {
    var dispatched := DispatchFrame(s, f, ok).next;
    DispatchShows(s, f, ok);
    ShownIsHeard(s, f, dispatched, heard);
    EarlyIsHeard(s, f, heard);
    FrameTold(Told(), s, interfaceIndex, f, ok, heard);
  }

  function WithEarly(s: Runner, f: Frame): Runner {
    s.(early := s.early + [f])
  }

  lemma EarlyIsHeard(s: Runner, f: Frame, heard: seq<Frame>)
    requires s.active && SeenIsHeard(s, heard)
    ensures SeenIsHeard(WithEarly(s, f), heard)
  {
    if s.current.phase == Wait {
      StillHeard(s, WithEarly(s, f), heard);
    }
  }

  lemma FrameTold(
    told: (Runner, seq<Frame>) -> bool, s: Runner, interfaceIndex: u8, f: Frame, ok: bool, heard: seq<Frame>)
    requires Running(s) && told(s, heard) && told(WithEarly(s, f), heard)
    requires told(DispatchFrame(s, f, ok).next, if IsWaiting(s) then heard + [f] else heard)
    ensures told(OnFrame(s, interfaceIndex, f, ok).next, HearCall(s, FrameCall(interfaceIndex, f, ok), heard))
  {
  }

  /** A step that goes on waiting is the same, and its answers are. */
  predicate StillWaits(s: Runner, n: Runner) {
    n.active && n.current.phase == Wait ==> SameStepWaits(s, n) && n.current.seen == s.current.seen
  }

  lemma RosterStillWaits(s: Runner, c: Call)
    requires Running(s) && s.current.phase == Wait && IsRosterMode(CurrentTemplate(s).mode) && c.RosterCall?
    ensures StillWaits(s, Apply(s, c).next)
  {
    FrontAccepted(s);
  }

  lemma TemplateStillWaits(s: Runner, c: Call)
    requires Running(s) && s.current.phase == Wait && c.TemplateCall?
    ensures StillWaits(s, Apply(s, c).next)
  {
    FrontAccepted(s);
  }

  lemma StepsStillWait(s: Runner, c: Call)
    requires Running(s) && s.current.phase == Wait && c.StepsCall?
    ensures StillWaits(s, Apply(s, c).next)
  {
  }

  /** The calls that bring something from the client leave a waiting step's answers as they are. */
  lemma ClientCallIsHeard(s: Runner, c: Call, heard: seq<Frame>)
    requires Running(s) && SeenIsHeard(s, heard) && !c.FrameCall? && !c.TickCall?
    requires s.current.phase == Wait && IsRosterMode(CurrentTemplate(s).mode)
    ensures SeenIsHeard(Apply(s, c).next, heard)
  {
    if c.RosterCall? {
      RosterStillWaits(s, c);
    } else if c.TemplateCall? {
      TemplateStillWaits(s, c);
    } else if c.StepsCall? {
      StepsStillWait(s, c);
    }
    StillHeard(s, Apply(s, c).next, heard);
  }

  lemma DefinitionStartsNoWait(s: Runner, c: Call)
    requires Running(s) && !AwaitsRoster(s) && (c.TemplateCall? || c.RosterCall?)
    ensures !AwaitsRoster(Apply(s, c).next)
  {
    if s.current.phase == Wait {
      FrontAccepted(s);
    }
  }

  /** A step that does not wait for a roster does not begin to by such a call. */
  lemma ClientCallStartsNoWait(s: Runner, c: Call)
    requires Running(s) && !c.FrameCall? && !c.TickCall? && !AwaitsRoster(s)
    ensures !AwaitsRoster(Apply(s, c).next)
  {
    if c.TemplateCall? || c.RosterCall? {
      DefinitionStartsNoWait(s, c);
    }
  }

  lemma OtherCallIsHeard(s: Runner, c: Call, heard: seq<Frame>)
    requires Running(s) && SeenIsHeard(s, heard) && !c.FrameCall? && !c.TickCall?
    ensures SeenIsHeard(Apply(s, c).next, heard)
  {
    if AwaitsRoster(s) {
      ClientCallIsHeard(s, c, heard);
    } else {
      ClientCallStartsNoWait(s, c);
    }
  }

  /** A call as the function it stands for. */
  lemma CallTold(told: (Runner, seq<Frame>) -> bool, s: Runner, c: Call, heard: seq<Frame>)
    requires RunnerOk(s)
    requires c.TickCall? ==> told(Tick(s, c.now, c.answers).next, HearCall(s, c, heard))
    requires c.FrameCall? ==> told(OnFrame(s, c.interfaceIndex, c.frame, c.ok).next, HearCall(s, c, heard))
    requires !c.TickCall? && !c.FrameCall? ==> told(Apply(s, c).next, heard)
    ensures told(Apply(s, c).next, HearCall(s, c, heard))
  {
  }

  lemma TickCallIsHeard(s: Runner, c: Call, heard: seq<Frame>)
    requires Running(s) && SeenIsHeard(s, heard) && c.TickCall?
    ensures SeenIsHeard(Apply(s, c).next, HearCall(s, c, heard))
  {
    TickIsHeard(s, c.now, c.answers, heard);
    CallTold(Told(), s, c, heard);
  }

  lemma FrameCallIsHeard(s: Runner, c: Call, heard: seq<Frame>)
    requires Running(s) && SeenIsHeard(s, heard) && c.FrameCall?
    ensures SeenIsHeard(Apply(s, c).next, HearCall(s, c, heard))
  {
    FrameIsHeard(s, c.interfaceIndex, c.frame, c.ok, heard);
    CallTold(Told(), s, c, heard);
  }

  /** No call leaves a runner without a transaction waiting. */
  lemma NoWaitAtRest(s: Runner, c: Call)
    requires RunnerOk(s) && !s.active
    ensures !AwaitsRoster(Apply(s, c).next)
  {
  }

  lemma CallIsHeard(s: Runner, c: Call, heard: seq<Frame>)
    requires RunnerOk(s) && SeenIsHeard(s, heard)
    ensures SeenIsHeard(Apply(s, c).next, HearCall(s, c, heard))
  {
    if !s.active {
      NoWaitAtRest(s, c);
    } else if c.TickCall? {
      TickCallIsHeard(s, c, heard);
    } else if c.FrameCall? {
      FrameCallIsHeard(s, c, heard);
    } else {
      OtherCallIsHeard(s, c, heard);
    }
  }

  lemma {:induction false} HearRunKeeps(
    told: (Runner, seq<Frame>) -> bool, apply: (Runner, Call) -> Result, ready: Runner -> bool,
    s: Runner, calls: seq<Call>, heard: seq<Frame>)
    requires forall x, c, h | ready(x) && told(x, h) :: told(apply(x, c).next, HearCall(x, c, h)) && ready(apply(x, c).next)
    requires ready(s) && told(s, heard)
    ensures told(Play(apply, s, calls).next, HearRun(apply, s, calls, heard))
    decreases |calls|
  {
    if calls != [] {
      HearRunKeeps(told, apply, ready, apply(s, calls[0]).next, calls[1..], HearCall(s, calls[0], heard));
    }
  }

  /**
    After any calls from power-up: while a step waits for a roster, a node is seen, at
    its first place in the roster, exactly if a frame shown to the step since it began
    to wait, its quorum not yet met, was that node's matching answer. Early frames
    replayed to a step that only expects count as shown.
   */
  lemma SeenIsAnswered(capacity: u32, calls: seq<Call>, i: nat)
    requires RECORD_SIZE_MAX <= capacity
    ensures var s, heard := Run(PowerUp(capacity), calls).next, HearRun(Caller(), PowerUp(capacity), calls, []);
      s.active && s.current.phase == Wait && IsRosterMode(CurrentTemplate(s).mode) ==>
        (i in s.current.seen <==> IsFirst(Nodes(s.defs), i) && Answered(s, heard, i))
  {
    var s := PowerUp(capacity);
    forall x, c, h | RunnerOk(x) && Told()(x, h)
      ensures Told()(Caller()(x, c).next, HearCall(x, c, h)) && RunnerOk(Caller()(x, c).next)
    {
      CallIsHeard(x, c, h);
    }
    HearRunKeeps(Told(), Caller(), RunnerOk, s, calls, []);
  }

  lemma {:induction false} AllIndices(elements: set<nat>, n: nat)
    requires (forall i | i in elements :: i < n) && |elements| >= n
    ensures forall i: nat | i < n :: i in elements
    decreases n
  {
    if n > 0 {
      if n - 1 !in elements {
        Bounded(elements, n - 1);
      }
      var rest := elements - {n - 1};
      AllIndices(rest, n - 1);
      forall i: nat | i < n ensures i in elements {
        assert i < n - 1 ==> i in rest;
      }
    }
  }

  /** In every reachable state, a step is satisfied exactly at its quorum; all nodes can only answer if no node is listed twice. */
  lemma QuorumIsExact(capacity: u32, calls: seq<Call>)
    requires RECORD_SIZE_MAX <= capacity
    ensures var s := Run(PowerUp(capacity), calls).next;
      s.active && s.current.phase == Wait && IsRosterMode(CurrentTemplate(s).mode) ==>
        && s.current.seenCount == |s.current.seen|
        && (s.current.satisfied <==> |s.current.seen| >= Needed(s.defs, CurrentTemplate(s)))
        && (CurrentTemplate(s).mode == MODE_ROSTER_ALL && s.current.satisfied ==> IsDistinct(Nodes(s.defs)))
  {
    var s := Run(PowerUp(capacity), calls).next;
    if s.active && s.current.phase == Wait && CurrentTemplate(s).mode == MODE_ROSTER_ALL && s.current.satisfied {
      AllSeenMeansDistinct(s);
    }
  }

  lemma AllSeenMeansDistinct(s: Runner)
    requires Running(s) && |s.current.seen| >= |Nodes(s.defs)|
    ensures IsDistinct(Nodes(s.defs))
  {
    var nodes := Nodes(s.defs);
    AllIndices(s.current.seen, |nodes|);
    forall i, j | 0 <= i < j < |nodes| ensures nodes[i] != nodes[j] {
      assert IsFirst(nodes, j);
    }
  }

  // ---------- rosters that list a node twice ----------

  /** The places at which a roster lists a node for the first time: one for each node. */
  function Firsts(nodes: seq<W32>): set<nat> {
    set i: nat | i < |nodes| && IsFirst(nodes, i)
  }

  lemma {:induction false} RangeCounts(elements: set<nat>, n: nat)
    requires forall i: nat :: i in elements <==> i < n
    ensures |elements| == n
    decreases n
  {
    if n > 0 {
      RangeCounts(elements - {n - 1}, n - 1);
    } else {
      assert elements == {};
    }
  }

  /** A roster has as many nodes as places exactly if it lists none twice. */
  lemma DistinctByCount(nodes: seq<W32>)
    ensures |Firsts(nodes)| <= |nodes|
    ensures |Firsts(nodes)| == |nodes| <==> IsDistinct(nodes)
  {
    Bounded(Firsts(nodes), |nodes|);
    if IsDistinct(nodes) {
      RangeCounts(Firsts(nodes), |nodes|);
    } else if |Firsts(nodes)| == |nodes| {
      AllIndices(Firsts(nodes), |nodes|);
      forall i, j | 0 <= i < j < |nodes| ensures nodes[i] != nodes[j] {
        assert j in Firsts(nodes);
      }
    }
  }

  lemma {:induction false} FewerOrEqual(some: set<nat>, all: set<nat>)
    requires some <= all
    ensures |some| <= |all|
    decreases |some|
  {
    if some != {} {
      var i :| i in some;
      FewerOrEqual(some - {i}, all - {i});
    }
  }

  ghost predicate AllAnswered(s: Runner, heard: seq<Frame>) {
    forall i: nat | i < |Nodes(s.defs)| :: Answered(s, heard, i)
  }

  /**
    After any calls from power-up, a step that waits for a roster is never satisfied if it needs more
    answers than the roster has nodes; and once every listed node has answered it is satisfied exactly
    if it does not. One that waits for all nodes does not exactly if no node is listed twice.
   */
  lemma QuorumReachedExactly(capacity: u32, calls: seq<Call>)
    requires RECORD_SIZE_MAX <= capacity
    ensures var s, heard := Run(PowerUp(capacity), calls).next, HearRun(Caller(), PowerUp(capacity), calls, []);
      var t, nodes := CurrentTemplate(s), Nodes(s.defs);
      s.active && s.current.phase == Wait && IsRosterMode(t.mode) ==>
        && (s.current.satisfied ==> Needed(s.defs, t) <= |Firsts(nodes)|)
        && (AllAnswered(s, heard) ==> (s.current.satisfied <==> Needed(s.defs, t) <= |Firsts(nodes)|))
        && (t.mode == MODE_ROSTER_ALL ==> (Needed(s.defs, t) <= |Firsts(nodes)| <==> IsDistinct(nodes)))
  {
    var s, heard := Run(PowerUp(capacity), calls).next, HearRun(Caller(), PowerUp(capacity), calls, []);
    if s.active && s.current.phase == Wait && IsRosterMode(CurrentTemplate(s).mode) {
      forall i: nat ensures i in s.current.seen <==> IsFirst(Nodes(s.defs), i) && Answered(s, heard, i) {
        SeenIsAnswered(capacity, calls, i);
      }
      SeenAgainstFirsts(s, heard);
      DistinctByCount(Nodes(s.defs));
    }
  }

  lemma SeenAgainstFirsts(s: Runner, heard: seq<Frame>)
    requires Running(s) && s.current.phase == Wait && IsRosterMode(CurrentTemplate(s).mode)
    requires forall i: nat :: i in s.current.seen <==> IsFirst(Nodes(s.defs), i) && Answered(s, heard, i)
    ensures var needed, firsts := Needed(s.defs, CurrentTemplate(s)), Firsts(Nodes(s.defs));
      && (s.current.satisfied ==> needed <= |firsts|)
      && (AllAnswered(s, heard) ==> (s.current.satisfied <==> needed <= |firsts|))
  {
    var firsts := Firsts(Nodes(s.defs));
    assert s.current.seen <= firsts;
    FewerOrEqual(s.current.seen, firsts);
    if AllAnswered(s, heard) {
      assert s.current.seen == firsts;
    }
  }

  /** What a step the builder accepts needs of its roster: all its places less those allowed to be missing. */
  lemma BuiltNeeds(s: B.Step, d: Definitions)
    requires B.StepOk(s) && B.NamesNodes(s) && d.roster == Some(B.ToRoster(s.response.value))
    ensures Needed(d, B.BuildTemplate(s)) == |s.response.value.nodes| - s.response.value.allowedMissing
    ensures Nodes(d) == s.response.value.nodes && IsRosterMode(B.BuildTemplate(s).mode)
  {
  }

  /** A step that expects the nodes to answer with their number in the first byte. */
  function ExpectNodes(nodes: seq<W32>, allowedMissing: u32): B.Step {
    var any := B.Match(B.CanId({}, false), {}, {}, {});
    var response := B.Response(any, None, None, true, nodes, allowedMissing, B.NODE_IN_BYTE, 0, 100, 0, false, false);
    B.Step(B.CanId({}, false), None, None, Some(response), None, 0)
  }

  lemma OneOfThree(nodes: seq<W32>)
    requires |nodes| == 3 && nodes[0] == nodes[1] == nodes[2]
    ensures |Firsts(nodes)| == 1
  {
    assert IsFirst(nodes, 0) && !IsFirst(nodes, 1) && !IsFirst(nodes, 2);
    assert Firsts(nodes) == {0};
  }

  /**
    The builder accepts such rosters. Node 1 listed twice cannot answer for all; listed three times
    with one allowed to be missing, it cannot answer for the two needed either.
   */
  lemma RepeatedNodesAccepted()
    ensures var twice, thrice := ExpectNodes([{0}, {0}], 0), ExpectNodes([{0}, {0}, {0}], 1);
      && B.StepOk(twice) && B.BuildTemplate(twice).mode == MODE_ROSTER_ALL && !IsDistinct(twice.response.value.nodes)
      && B.StepOk(thrice) && B.BuildTemplate(thrice).mode == MODE_ROSTER_K
      && B.BuildTemplate(thrice).countK == 2 > |Firsts(thrice.response.value.nodes)|
  {
    var two: seq<W32> := [{0}, {0}];
    assert two[0] == two[1];
    OneOfThree([{0}, {0}, {0}]);
  }

  // ---------- the report of missing nodes ----------

  function Reports(outputs: seq<Output>): seq<Output> {
    if outputs == [] then []
    else (if outputs[0].Missing? then [outputs[0]] else []) + Reports(outputs[1..])
  }

  lemma {:induction false} NoReports(outputs: seq<Output>)
    requires forall o | o in outputs :: !o.Missing?
    ensures Reports(outputs) == []
    decreases |outputs|
  {
    if outputs != [] {
      NoReports(outputs[1..]);
    }
  }

  lemma {:induction false} ReportsAfter(first: seq<Output>, rest: seq<Output>)
    ensures Reports(first + rest) == Reports(first) + Reports(rest)
    decreases |first|
  {
    if first == [] {
      assert first + rest == rest;
    } else {
      assert (first + rest)[1..] == first[1..] + rest && (first + rest)[0] == first[0];
      ReportsAfter(first[1..], rest);
      Together(if first[0].Missing? then [first[0]] else [], Reports(first[1..]), Reports(rest));
    }
  }

  lemma Together<A>(a: seq<A>, b: seq<A>, c: seq<A>)
    ensures a + (b + c) == a + b + c
  {
  }

  /** What a pass must report: the nodes not seen by the roster step it completes. */
  function DueReport(s: Runner, r: Result): seq<Output> {
    if && s.current.phase == Wait && r.next.active && r.next.current.phase == Idle
       && IsRosterMode(CurrentTemplate(s).mode) && |s.current.seen| < |Nodes(s.defs)|
    then [Missing(s.session.channel, s.session.txnId, s.ledger.completed, s.current.seen)]
    else []
  }

  lemma SettleReports(s: Runner, now: nat)
    requires Running(s) && s.current.phase == Wait
    ensures Reports(Settle(s, now).outputs) == DueReport(s, Settle(s, now))
  {
  }

  lemma WaitReports(s: Runner, o: I.Out, now: nat)
    requires Running(s) && s.current.phase == Wait && I.LinkOk(o.link)
    ensures Reports(WaitOutcome(s, o, now).outputs) == DueReport(s, WaitOutcome(s, o, now))
  {
    var sent := Emitted(s, o.frames);
    NoReports(sent);
    if o.event != I.Failed {
      var ticked := WithLink(s, o, now);
      SettleReports(ticked, now);
      ReportsAfter(sent, Settle(ticked, now).outputs);
    } else {
      NoReports(WaitOutcome(s, o, now).outputs);
    }
  }

  /** A pass reports the missing nodes exactly when it completes a roster step that not all nodes answered. */
  lemma PassReports(s: Runner, now: nat, a: Answers)
    requires Running(s)
    ensures Reports(RunOnce(s, now, a).outputs) == DueReport(s, RunOnce(s, now, a))
  {
    match s.current.phase
    case Idle =>
      NoReports(LoadNextStep(s, now, a).outputs);
    case Transmit =>
      NoReports(TransmitStep(s, now, a).outputs);
    case Wait =>
      if IsIsotpStep(s) {
        WaitReports(s, I.Tick(s.link, now, a.ok, a.oks), now);
      } else {
        SettleReports(s, now);
      }
  }

  // ---------- over whole ticks and runs ----------

  /** As Repeat, for the reports due on the way: one for each roster step completed with nodes missing, in order. */
  function DueAll<A>(pass: (Runner, Option<A>) -> Result, s: Runner, budget: nat, answers: seq<A>): seq<Output>
    decreases budget
  {
    if budget == 0 then []
    else
      var first := pass(s, Head(answers));
      DueReport(s, first) +
      if !first.next.active || !first.again then [] else DueAll(pass, first.next, budget - 1, Tail(answers))
  }

  lemma {:induction false} PassesReport<A(!new)>(
    pass: (Runner, Option<A>) -> Result, ready: Runner -> bool, s: Runner, budget: nat, answers: seq<A>)
    requires forall x, a | ready(x) :: Reports(pass(x, a).outputs) == DueReport(x, pass(x, a))
    requires forall x, a | ready(x) && pass(x, a).next.active :: ready(pass(x, a).next)
    requires ready(s)
    ensures Reports(Repeat(pass, s, budget, answers).outputs) == DueAll(pass, s, budget, answers)
    decreases budget
  {
    if budget > 0 {
      var first := pass(s, Head(answers));
      if first.next.active && first.again {
        PassesReport(pass, ready, first.next, budget - 1, Tail(answers));
        var rest := Repeat(pass, first.next, budget - 1, Tail(answers));
        ReportsAfter(first.outputs, rest.outputs);
        assert Repeat(pass, s, budget, answers).outputs == first.outputs + rest.outputs;
      } else {
        assert DueAll(pass, s, budget, answers) == DueReport(s, first);
      }
    }
  }

  function DueCall(s: Runner, c: Call): seq<Output> {
    if s.active && c.TickCall? then DueAll(Pass(c.now), s.(lastTickUs := c.now), StepsPerTick(), c.answers) else []
  }

  function DueRun(apply: (Runner, Call) -> Result, s: Runner, calls: seq<Call>): seq<Output>
    decreases |calls|
  {
    if calls == [] then [] else DueCall(s, calls[0]) + DueRun(apply, apply(s, calls[0]).next, calls[1..])
  }

  lemma TickPassesReport(s: Runner, now: nat, answers: seq<Answers>)
    requires Running(s)
    ensures Reports(Repeat(Pass(now), s, StepsPerTick(), answers).outputs) == DueAll(Pass(now), s, StepsPerTick(), answers)
  {
    forall x, a: Option<Answers> | Running(x) ensures Reports(Pass(now)(x, a).outputs) == DueReport(x, Pass(now)(x, a)) {
      PassReports(x, now, if a.Some? then a.value else NO_ANSWERS);
    }
    PassesReport(Pass(now), Running, s, StepsPerTick(), answers);
  }

  lemma FlushReportsNothing(s: Runner, now: nat)
    ensures Reports(Flushed(s, now).outputs) == []
  {
    NoReports(Flushed(s, now).outputs);
  }

  lemma TickReports(s: Runner, now: nat, answers: seq<Answers>)
    requires Running(s)
    ensures Reports(Tick(s, now, answers).outputs) == DueCall(s, TickCall(now, answers))
  {
    var timed := s.(lastTickUs := now);
    TickPassesReport(timed, now, answers);
    var run := Repeat(Pass(now), timed, StepsPerTick(), answers);
    TickNext(s, now, answers);
    FlushReportsNothing(run.next, now);
    ReportsAfter(run.outputs, if run.next.active then Flushed(run.next, now).outputs else []);
  }

  lemma OtherCallsReportNothing(s: Runner, c: Call)
    requires RunnerOk(s) && !c.TickCall?
    ensures Reports(Apply(s, c).outputs) == []
  {
    NoReports(Apply(s, c).outputs);
  }

  lemma CallReports(s: Runner, c: Call)
    requires RunnerOk(s)
    ensures Reports(Apply(s, c).outputs) == DueCall(s, c)
  {
    if !c.TickCall? {
      OtherCallsReportNothing(s, c);
    } else if s.active {
      TickReports(s, c.now, c.answers);
    }
  }

  lemma {:induction false} RunReports(apply: (Runner, Call) -> Result, ready: Runner -> bool, s: Runner, calls: seq<Call>)
    requires forall x, c | ready(x) :: Reports(apply(x, c).outputs) == DueCall(x, c) && ready(apply(x, c).next)
    requires ready(s)
    ensures Reports(Play(apply, s, calls).outputs) == DueRun(apply, s, calls)
    decreases |calls|
  {
    if calls != [] {
      var first := apply(s, calls[0]);
      RunReports(apply, ready, first.next, calls[1..]);
      ReportsAfter(first.outputs, Play(apply, first.next, calls[1..]).outputs);
    }
  }

  /** The reports of missing nodes in any run are exactly those due: one for each roster step completed with nodes missing, in order. */
  lemma MissingNodesReported(s: Runner, calls: seq<Call>)
    requires RunnerOk(s)
    ensures Reports(Run(s, calls).outputs) == DueRun(Caller(), s, calls)
  {
    forall x, c | RunnerOk(x)
      ensures Reports(Caller()(x, c).outputs) == DueCall(x, c) && RunnerOk(Caller()(x, c).next)
    {
      CallReports(x, c);
    }
    RunReports(Caller(), RunnerOk, s, calls);
  }
}
