/**
  When the runner needs its next tick: after a tick that came to rest, no tick
  before NextWakeUs has anything to do. The only assumption is that the clock
  is positive, because 0 stands for "no timer".
 */
module RunnerTimers {
  import opened Frames
  import opened StepCodec
  import opened AgentRules
  import opened TransactionRunner
  import opened RunnerRuns
  import I = IsotpLink

  predicate TimesOk(s: Runner) {
    && I.TimesPositive(s.link)
    && (s.active ==>
        && s.lastTickUs > 0
        && (s.current.phase == Wait ==> s.current.deadlineUs > 0)
        && (s.current.phase == Transmit && s.current.messageStarted ==>
            IsIsotpStep(s) && !s.link.sender.phase.SenderIdle?))
  }

  /** What the last pass of a tick leaves when it stops on its own. */
  predicate Rests(s: Runner) {
    match s.current.phase
    case Idle => s.ledger.queue == [] && !s.ledger.ended && s.starveDeadlineUs > 0
    case Transmit => s.current.messageStarted || s.lastTickUs < s.nextTransmitUs || s.lastTickUs < s.current.retryAtUs
    case Wait => !s.current.satisfied && !s.current.extendRequested
  }

  /** Progress not yet reported waits for its flush time. */
  predicate ReportWaits(s: Runner) {
    var pending := Unreported(s);
    pending == 0 || (pending < s.window / PROGRESS_THRESHOLD_DIVISOR && s.reportDueUs > 0)
  }

  // ---------- the link ----------

  lemma SendNextGoesOn(l: I.Link, now: nat, ok: bool)
    requires I.LinkOk(l) && I.SendDue(l, now)
    ensures var o := I.SendNext(l, now, ok);
      o.event != I.Message && (o.event == I.NoEvent ==> !o.link.sender.phase.SenderIdle?)
  {
  }

  lemma {:induction false} SendingGoesOn(l: I.Link, now: nat, budget: nat, oks: seq<bool>)
    requires I.LinkOk(l)
    ensures var o := I.SendLoop(l, now, budget, oks);
      o.event != I.Message && (o.event == I.NoEvent ==> (o.link.sender.phase.SenderIdle? <==> l.sender.phase.SenderIdle?))
    decreases budget
  {
    if budget > 0 && I.SendDue(l, now) {
      SendNextGoesOn(l, now, I.Answer(oks));
      var first := I.SendNext(l, now, I.Answer(oks));
      if first.event == I.NoEvent {
        SendingGoesOn(first.link, now, budget - 1, I.Rest(oks));
      }
    }
  }

  /** Only a message sent, or a failure, ends the sending. */
  lemma TickGoesOn(l: I.Link, now: nat, ok: bool, oks: seq<bool>)
    requires I.LinkOk(l)
    ensures var o := I.Tick(l, now, ok, oks);
      o.event != I.Message && (o.event == I.NoEvent ==> (o.link.sender.phase.SenderIdle? <==> l.sender.phase.SenderIdle?))
  {
    SendingGoesOn(I.TickReceiver(l, now, ok).link, now, I.FramesPerTick(), oks);
  }

  lemma FrameGoesOn(l: I.Link, f: Frame, now: nat, ok: bool)
    requires I.LinkOk(l)
    ensures var o := I.OnFrame(l, f, now, ok);
      o.event != I.Failed ==> (o.link.sender.phase.SenderIdle? <==> l.sender.phase.SenderIdle?)
  {
  }

  /** A link is quiet before its wake time, or for ever when it has none. */
  lemma LinkQuiet(l: I.Link, now: nat, ok: bool, oks: seq<bool>)
    requires I.LinkOk(l) && I.TimesPositive(l) && (I.NextWakeUs(l) == 0 || now < I.NextWakeUs(l))
    ensures I.Tick(l, now, ok, oks) == I.Out(l, I.NoEvent, [])
  {
    I.WakeTimeSound(l);
  }

  // ---------- one pass ----------

  predicate Advanced(s: Runner, now: nat, r: Result) {
    && I.TimesPositive(r.next.link)
    && (r.next.active ==> TimesOk(r.next) && r.next.lastTickUs == now && (!r.again ==> Rests(r.next)))
  }

  lemma MatchTimes(s: Runner, f: Frame)
    requires Running(s) && IsWaiting(s) && TimesOk(s)
    ensures TimesOk(MatchFrame(s, f).next) && MatchFrame(s, f).next.lastTickUs == s.lastTickUs
  {
  }

  lemma FedOutcomeTimes(s: Runner, o: I.Out)
    requires Running(s) && IsIsotpStep(s) && TimesOk(s) && I.LinkOk(o.link) && I.TimesPositive(o.link)
    requires o.event != I.Failed ==> (o.link.sender.phase.SenderIdle? <==> s.link.sender.phase.SenderIdle?)
    ensures TimesOk(FedOutcome(s, o).next) && FedOutcome(s, o).next.lastTickUs == s.lastTickUs
  {
    if o.event == I.Message && IsWaiting(s) {
      MatchTimes(WithLink(s, o, s.lastTickUs), MessageFrame(o.link));
    }
  }

  lemma DispatchTimes(s: Runner, f: Frame, ok: bool)
    requires Running(s) && TimesOk(s)
    ensures TimesOk(DispatchFrame(s, f, ok).next) && DispatchFrame(s, f, ok).next.lastTickUs == s.lastTickUs
  {
    if IsIsotpStep(s) {
      FrameGoesOn(s.link, f, s.lastTickUs, ok);
      FedOutcomeTimes(s, I.OnFrame(s.link, f, s.lastTickUs, ok));
    } else if IsWaiting(s) {
      MatchTimes(s, f);
    }
  }

  predicate ReplayedInTime(now: nat, r: Result) {
    && TimesOk(r.next) && r.next.lastTickUs == now && RunnerOk(r.next)
  }

  lemma ReplayTimes(s: Runner, frames: seq<Frame>, oks: seq<bool>)
    requires Running(s) && TimesOk(s)
    ensures ReplayedInTime(s.lastTickUs, ReplayFrames(s, frames, oks))
  {
    var now := s.lastTickUs;
    forall x, a | ReadyAt(now)(x) ensures ReplayedAt(now)(x, Replayer()(x, a)) {
      if a.Some? {
        DispatchTimes(x, a.value.0, a.value.1);
      }
    }
    RepeatChains(Replayer(), ReadyAt(now), ReplayedAt(now), s, |frames|, WithAnswers(frames, oks));
    assert ReplayedAt(now)(s, ReplayFrames(s, frames, oks));
  }

  function ReplayedAt(now: nat): (Runner, Result) -> bool {
    (s: Runner, r: Result) => ReplayedInTime(now, r)
  }

  predicate IsReady(s: Runner, now: nat) {
    Running(s) && TimesOk(s) && s.lastTickUs == now
  }

  function ReadyAt(now: nat): Runner -> bool {
    (s: Runner) => IsReady(s, now)
  }

  lemma StartTimes(s: Runner, now: nat, a: Answers)
    requires Running(s) && IsLoaded(s) && !s.current.step.isContinued && TimesOk(s) && s.lastTickUs == now > 0
    ensures Advanced(s, now, StartStep(s, now, a))
  {
    FrontAccepted(s);
    if s.current.step.expectOnly {
      ReplayTimes(StartWait(Opened(s), now).(early := []), s.early, a.oks);
    }
  }

  lemma LoadTimes(s: Runner, now: nat, a: Answers)
    requires Running(s) && s.current.phase == Idle && TimesOk(s) && s.lastTickUs == now > 0
    ensures Advanced(s, now, LoadNextStep(s, now, a))
  {
    if s.ledger.queue != [] {
      FrontAccepted(s);
      var loaded := Loaded(s);
      if !loaded.current.step.isMessage {
        StartTimes(loaded, now, a);
      } else {
        GatherTimes(loaded, now, a);
      }
    }
  }

  lemma GatherTimes(s: Runner, now: nat, a: Answers)
    requires Running(s) && IsLoaded(s) && TimesOk(s) && s.lastTickUs == now > 0
    ensures Advanced(s, now, GatherMessage(s, now, a))
  {
    var step := s.current.step;
    if |s.message| + |step.payload| <= I.MESSAGE_SIZE_MAX && !step.isContinued {
      StartTimes(s.(message := s.message + step.payload), now, a);
    }
  }

  lemma FinishTimes(s: Runner, now: nat)
    requires Running(s) && s.current.phase == Transmit && I.TimesPositive(s.link) && s.lastTickUs == now > 0
    ensures var r := FinishTransmit(s, now); TimesOk(r.next) && r.next.lastTickUs == now && r.again
  {
  }

  lemma MessageOutcomeTimes(s: Runner, o: I.Out, now: nat)
    requires Running(s) && s.current.phase == Transmit && s.current.messageStarted && IsIsotpStep(s) && s.lastTickUs == now > 0
    requires I.LinkOk(o.link) && I.TimesPositive(o.link)
    requires o.event != I.Message && (o.event == I.NoEvent ==> !o.link.sender.phase.SenderIdle?)
    ensures Advanced(s, now, MessageOutcome(s, o, now))
  {
    if o.event == I.Sent {
      FinishTimes(WithLink(s, o, now), now);
    }
  }

  lemma MessageTimes(s: Runner, now: nat, a: Answers)
    requires Running(s) && s.current.phase == Transmit && IsIsotpStep(s) && TimesOk(s) && s.lastTickUs == now > 0
    ensures Advanced(s, now, TransmitMessage(s, now, a))
  {
    var started := StartedMessage(s, now);
    TickGoesOn(started.link, now, a.ok, a.oks);
    MessageOutcomeTimes(started, I.Tick(started.link, now, a.ok, a.oks), now);
  }

  lemma FrameTimes(s: Runner, now: nat, ok: bool)
    requires Running(s) && s.current.phase == Transmit && !IsIsotpStep(s) && TimesOk(s) && s.lastTickUs == now > 0
    ensures Advanced(s, now, TransmitFrame(s, now, ok))
  {
  }

  lemma TransmitTimes(s: Runner, now: nat, a: Answers)
    requires Running(s) && s.current.phase == Transmit && TimesOk(s) && s.lastTickUs == now > 0
    ensures Advanced(s, now, TransmitStep(s, now, a))
  {
    if IsIsotpStep(s) {
      MessageTimes(s, now, a);
    } else {
      FrameTimes(s, now, a.ok);
    }
  }

  lemma SettleTimes(s: Runner, now: nat)
    requires Running(s) && s.current.phase == Wait && TimesOk(s) && s.lastTickUs == now > 0
    ensures Advanced(s, now, Settle(s, now))
  {
  }

  lemma WaitOutcomeTimes(s: Runner, o: I.Out, now: nat)
    requires Running(s) && s.current.phase == Wait && TimesOk(s) && s.lastTickUs == now > 0
    requires I.LinkOk(o.link) && I.TimesPositive(o.link)
    ensures Advanced(s, now, WaitOutcome(s, o, now))
  {
    if o.event != I.Failed {
      SettleTimes(WithLink(s, o, now), now);
    }
  }

  lemma WaitTimes(s: Runner, now: nat, a: Answers)
    requires Running(s) && s.current.phase == Wait && TimesOk(s) && s.lastTickUs == now > 0
    ensures Advanced(s, now, SettleWait(s, now, a))
  {
    if IsIsotpStep(s) {
      WaitOutcomeTimes(s, I.Tick(s.link, now, a.ok, a.oks), now);
    } else {
      SettleTimes(s, now);
    }
  }

  lemma PassTimes(s: Runner, now: nat, a: Answers)
    requires Running(s) && TimesOk(s) && s.lastTickUs == now > 0
    ensures Advanced(s, now, RunOnce(s, now, a))
  {
    match s.current.phase
    case Idle => LoadTimes(s, now, a);
    case Transmit => TransmitTimes(s, now, a);
    case Wait => WaitTimes(s, now, a);
  }

  predicate KeptInTime(now: nat, r: Result) {
    && I.TimesPositive(r.next.link)
    && (r.next.active ==> IsReady(r.next, now) && (!r.again ==> Rests(r.next)))
  }

  function KeptAt(now: nat): (Runner, Result) -> bool {
    (s: Runner, r: Result) => KeptInTime(now, r)
  }

  lemma TimeChains(now: nat)
    requires now > 0
    ensures Chains(ReadyAt(now), KeptAt(now))
  {
  }

  lemma PassesTimes(s: Runner, now: nat, answers: seq<Answers>)
    requires IsReady(s, now) && now > 0
    ensures KeptInTime(now, Repeat(Pass(now), s, StepsPerTick(), answers))
  {
    TimeChains(now);
    forall x, a | ReadyAt(now)(x) ensures KeptAt(now)(x, Pass(now)(x, a)) {
      PassTimes(x, now, if a.Some? then a.value else NO_ANSWERS);
    }
    RepeatChains(Pass(now), ReadyAt(now), KeptAt(now), s, StepsPerTick(), answers);
    assert KeptAt(now)(s, Repeat(Pass(now), s, StepsPerTick(), answers));
  }

  lemma FlushWaits(s: Runner, now: nat)
    requires now > 0
    ensures ReportWaits(Flushed(s, now).next)
  {
    assert Unreported(ReportProgress(s).next) == 0;
  }

  lemma FlushTimes(s: Runner, now: nat)
    requires TimesOk(s)
    ensures var f := Flushed(s, now).next;
      TimesOk(f) && f == s.(reported := f.reported, reportDueUs := f.reportDueUs)
  {
  }

  /** A tick that stops on its own comes to rest. */
  lemma TickRests(s: Runner, now: nat, answers: seq<Answers>)
    requires RunnerOk(s) && TimesOk(s) && now > 0
    ensures var r := Tick(s, now, answers);
      && TimesOk(r.next)
      && (s.active && r.next.active && !r.again ==> Rests(r.next) && ReportWaits(r.next))
  {
    if s.active {
      PassesTimes(s.(lastTickUs := now), now, answers);
      var run := Repeat(Pass(now), s.(lastTickUs := now), StepsPerTick(), answers);
      if run.next.active {
        FlushTimes(run.next, now);
        FlushWaits(run.next, now);
      }
    }
  }

  // ---------- at rest ----------

  lemma WakePositive(s: Runner)
    requires Running(s) && TimesOk(s) && Rests(s)
    ensures NextWakeUs(s) > 0
  {
  }

  lemma WaitQuiet(s: Runner, now: nat, a: Answers)
    requires Running(s) && TimesOk(s) && Rests(s) && now < NextWakeUs(s) && s.current.phase == Wait
    ensures RunOnce(s.(lastTickUs := now), now, a) == Result(s.(lastTickUs := now), [], false)
  {
    if IsIsotpStep(s) {
      LinkQuiet(s.link, now, a.ok, a.oks);
    }
  }

  lemma PassQuiet(s: Runner, now: nat, a: Answers)
    requires Running(s) && TimesOk(s) && Rests(s) && now < NextWakeUs(s)
    ensures RunOnce(s.(lastTickUs := now), now, a) == Result(s.(lastTickUs := now), [], false)
  {
    if s.current.phase == Wait {
      WaitQuiet(s, now, a);
    } else if IsIsotpStep(s) && s.current.messageStarted {
      LinkQuiet(s.link, now, a.ok, a.oks);
    }
  }

  lemma FlushQuiet(s: Runner, now: nat)
    requires ReportWaits(s) && (s.reportDueUs == 0 || now < s.reportDueUs)
    ensures Flushed(s, now) == Result(s, [], false)
  {
  }

  lemma WakeBeforeReport(s: Runner)
    requires Running(s) && TimesOk(s) && Rests(s)
    ensures s.reportDueUs == 0 || NextWakeUs(s) <= s.reportDueUs
  {
  }

  /** At rest, a tick before the wake time transmits nothing, reports nothing and changes nothing but its own time. */
  lemma QuietBeforeWake(s: Runner, now: nat, answers: seq<Answers>)
    requires Running(s) && TimesOk(s) && Rests(s) && ReportWaits(s) && now < NextWakeUs(s)
    ensures Tick(s, now, answers) == Result(s.(lastTickUs := now), [], false)
  {
    var ticked := s.(lastTickUs := now);
    PassQuiet(s, now, if answers == [] then NO_ANSWERS else answers[0]);
    RepeatStops(Pass(now), ticked, StepsPerTick(), answers);
    WakeBeforeReport(s);
    FlushQuiet(ticked, now);
  }

  // ---------- every run ----------

  predicate IsTimed(c: Call) {
    && (c.BeginCall? ==> c.now > 0)
    && (c.TickCall? ==> c.now > 0)
  }

  lemma ReceivedTimes(s: Runner, interfaceIndex: u8, frame: Frame, ok: bool)
    requires RunnerOk(s) && TimesOk(s)
    ensures TimesOk(OnFrame(s, interfaceIndex, frame, ok).next)
  {
    if s.active && interfaceIndex == s.session.interfaceIndex && !frame.echo && !IsBetweenSteps(s) {
      DispatchTimes(s, frame, ok);
    }
  }

  lemma StepsTimes(s: Runner, c: Call)
    requires RunnerOk(s) && TimesOk(s) && c.StepsCall?
    ensures TimesOk(Apply(s, c).next)
  {
  }

  lemma CallTimes(s: Runner, c: Call)
    requires RunnerOk(s) && TimesOk(s) && IsTimed(c)
    ensures TimesOk(Apply(s, c).next)
  {
    match c
    case FrameCall(interfaceIndex, frame, ok) => ReceivedTimes(s, interfaceIndex, frame, ok);
    case TickCall(now, answers) => TickRests(s, now, answers);
    case TemplateCall(txnId, template) => TemplateTimes(s, txnId, template);
    case StepsCall(_, _, _, _, _) => StepsTimes(s, c);
    case _ =>
  }

  lemma TemplateTimes(s: Runner, txnId: u16, t: Template)
    requires RunnerOk(s) && TimesOk(s)
    ensures TimesOk(DefineTemplateCall(s, txnId, t).next)
  {
    if s.active && s.current.phase != Idle {
      FrontAccepted(s);
    }
  }

  predicate KeepsTime(s: Runner) {
    RunnerOk(s) && TimesOk(s)
  }

  lemma RunTimes(s: Runner, calls: seq<Call>)
    requires KeepsTime(s) && forall c | c in calls :: IsTimed(c)
    ensures KeepsTime(Run(s, calls).next)
  {
    forall x, c | KeepsTime(x) && IsTimed(c) ensures KeepsTime(Caller()(x, c).next) {
      CallTimes(x, c);
    }
    PlayKeeps(Caller(), KeepsTime, IsTimed, s, calls);
  }

  /**
    Timer soundness, for every run on a positive clock: a tick that stops on its
    own, not on its budget of passes, and leaves the transaction active, names a
    wake time before which a tick does nothing at all.
   */
  lemma WakeTimeSound(capacity: u32, calls: seq<Call>, now: nat, answers: seq<Answers>, early: nat, others: seq<Answers>)
    requires RECORD_SIZE_MAX <= capacity && now > 0 && forall c | c in calls :: IsTimed(c)
    ensures var before := Run(PowerUp(capacity), calls).next;
      var r := Tick(before, now, answers);
      before.active && r.next.active && !r.again ==>
        && NextWakeUs(r.next) > 0
        && (early < NextWakeUs(r.next) ==> Tick(r.next, early, others) == Result(r.next.(lastTickUs := early), [], false))
  {
    var before := Run(PowerUp(capacity), calls).next;
    RunTimes(PowerUp(capacity), calls);
    TickRests(before, now, answers);
    var r := Tick(before, now, answers);
    if before.active && r.next.active && !r.again {
      WakePositive(r.next);
      if early < NextWakeUs(r.next) {
        QuietBeforeWake(r.next, early, others);
      }
    }
  }
}
