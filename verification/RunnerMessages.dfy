/**
  How the runner gathers the records of ISO-TP messages
  (src/agent/domain/transaction_runner.c): what is still to be gathered fits,
  and a message cut into records is started byte for byte.
 */
module RunnerMessages {
  import opened Frames
  import opened StepCodec
  import opened AgentRules
  import opened TransactionRunner
  import I = IsotpLink

  /**
    The length of the message left open after `records`, when `open` bytes have been
    gathered before them; None if some message on the way gets too long.
   */
  function OpenAfter(open: nat, records: seq<TxnStep>): Option<nat>
    decreases |records|
  {
    if records == [] then Some(open)
    else
      var first := records[0];
      if first.isMessage && open + |first.payload| > I.MESSAGE_SIZE_MAX then None
      else OpenAfter(if first.isContinued then open + |first.payload| else 0, records[1..])
  }

  lemma {:induction false} OpenAfterBoth(open: nat, some: seq<TxnStep>, more: seq<TxnStep>)
    ensures OpenAfter(open, some + more) ==
      match OpenAfter(open, some) case None => None case Some(between) => OpenAfter(between, more)
    decreases |some|
  {
    if some == [] {
      assert some + more == more;
    } else {
      var first := some[0];
      assert (some + more)[1..] == some[1..] + more;
      if !(first.isMessage && open + |first.payload| > I.MESSAGE_SIZE_MAX) {
        OpenAfterBoth(if first.isContinued then open + |first.payload| else 0, some[1..], more);
      }
    }
  }

  /** As OpenAfter, for the records in the ring; the front record of a step in execution is gathered already. */
  function OpenAfterRing(s: Runner): Option<nat> {
    if s.current.phase == Idle then OpenAfter(|s.message|, s.ledger.queue)
    else if s.ledger.queue == [] then None
    else OpenAfter(0, s.ledger.queue[1..])
  }

  predicate NoInvalidStep(outputs: seq<Output>) {
    forall o | o in outputs :: o.Finished? ==> o.status.reason != InvalidStep
  }

  /** What the agent does by itself never aborts for an invalid step, and leaves what is still to be gathered as it was. */
  predicate Gathers(s: Runner, r: Result) {
    NoInvalidStep(r.outputs) && (r.next.active ==> OpenAfterRing(r.next) == OpenAfterRing(s))
  }

  predicate CanGather(s: Runner) {
    Running(s) && OpenAfterRing(s).Some?
  }

  // ---------- steps ----------

  lemma CompleteGathers(s: Runner)
    requires CanGather(s) && s.current.phase != Idle
    ensures Gathers(s, CompleteStep(s))
  {
  }

  lemma FinishTransmitGathers(s: Runner, now: nat)
    requires CanGather(s) && s.current.phase == Transmit
    ensures Gathers(s, FinishTransmit(s, now))
  {
    var spaced := s.(nextTransmitUs := now + CurrentTemplate(s).gapUs);
    if !IsWaitingMode(CurrentTemplate(s).mode) {
      CompleteGathers(spaced);
    }
  }

  /** The ring, the message and the phase are untouched, or the transaction ended with another reason. */
  predicate OnlyWatches(s: Runner, r: Result) {
    && NoInvalidStep(r.outputs)
    && (r.next.active ==>
         r.next.message == s.message && r.next.ledger == s.ledger && r.next.current.phase == s.current.phase)
  }

  lemma MatchWatches(s: Runner, f: Frame)
    requires Running(s) && IsWaiting(s)
    ensures OnlyWatches(s, MatchFrame(s, f))
  {
  }

  lemma EmittedPlainly(s: Runner, frames: seq<Frame>, r: Result)
    requires NoInvalidStep(r.outputs)
    ensures NoInvalidStep(After(Emitted(s, frames), r).outputs)
  {
  }

  lemma FedWatches(s: Runner, o: I.Out)
    requires Running(s) && I.LinkOk(o.link)
    ensures OnlyWatches(s, FedOutcome(s, o))
  {
    var fed := WithLink(s, o, s.lastTickUs);
    if o.event == I.Message && IsWaiting(s) {
      MatchWatches(fed, MessageFrame(o.link));
    }
    EmittedPlainly(s, o.frames, FedFollows(s, o));
  }

  lemma DispatchWatches(s: Runner, f: Frame, ok: bool)
    requires Running(s)
    ensures OnlyWatches(s, DispatchFrame(s, f, ok))
  {
    if IsIsotpStep(s) {
      FedWatches(s, I.OnFrame(s.link, f, s.lastTickUs, ok));
    } else if IsWaiting(s) {
      MatchWatches(s, f);
    }
  }

  predicate WatchesReplay(s: Runner, r: Result) {
    KeptReplay(s, r) && OnlyWatches(s, r)
  }

  lemma ReplayWatches(s: Runner, frames: seq<Frame>, oks: seq<bool>)
    requires Running(s)
    ensures OnlyWatches(s, ReplayFrames(s, frames, oks))
  {
    ReplayChains();
    forall x, a | Running(x) ensures WatchesReplay(x, Replayer()(x, a)) {
      ReplayerKeeps(x, a);
      if a.Some? {
        DispatchWatches(x, a.value.0, a.value.1);
      }
    }
    RepeatChains(Replayer(), Running, WatchesReplay, s, |frames|, WithAnswers(frames, oks));
  }

  lemma StartGathers(s: Runner, now: nat, a: Answers)
    requires Running(s) && IsLoaded(s) && !s.current.step.isContinued
    requires OpenAfter(0, s.ledger.queue[1..]).Some?
    ensures var r := StartStep(s, now, a);
      NoInvalidStep(r.outputs) && (r.next.active ==> OpenAfterRing(r.next) == OpenAfter(0, s.ledger.queue[1..]))
  {
    FrontAccepted(s);
    if s.current.step.expectOnly {
      ReplayWatches(StartWait(Opened(s), now).(early := []), s.early, a.oks);
    }
  }

  lemma MessageGathers(s: Runner, now: nat, a: Answers)
    requires CanGather(s) && IsLoaded(s) && s.current.step.isMessage
    ensures Gathers(s, GatherMessage(s, now, a))
  {
    var step := s.current.step;
    if !step.isContinued {
      StartGathers(s.(message := s.message + step.payload), now, a);
    }
  }

  lemma LoadGathers(s: Runner, now: nat, a: Answers)
    requires CanGather(s) && s.current.phase == Idle
    ensures Gathers(s, LoadNextStep(s, now, a))
  {
    if s.ledger.queue != [] {
      FrontAccepted(s);
      var loaded := Loaded(s);
      if loaded.current.step.isMessage {
        MessageGathers(loaded, now, a);
      } else {
        StartGathers(loaded, now, a);
      }
    }
  }

  lemma TransmitGathers(s: Runner, now: nat, a: Answers)
    requires CanGather(s) && s.current.phase == Transmit
    ensures Gathers(s, TransmitStep(s, now, a))
  {
    if now >= s.nextTransmitUs && now >= s.current.retryAtUs {
      if IsIsotpStep(s) {
        MessageTransmitGathers(s, now, a);
      } else {
        FrameGathers(s, now, a.ok);
      }
    }
  }

  lemma StartedGathers(s: Runner, now: nat)
    requires CanGather(s) && s.current.phase == Transmit
    ensures CanGather(StartedMessage(s, now)) && OpenAfterRing(StartedMessage(s, now)) == OpenAfterRing(s)
  {
  }

  lemma MessageTransmitGathers(s: Runner, now: nat, a: Answers)
    requires CanGather(s) && s.current.phase == Transmit
    ensures Gathers(s, TransmitMessage(s, now, a))
  {
    StartedGathers(s, now);
    var started := StartedMessage(s, now);
    TransmittedGathers(started, I.Tick(started.link, now, a.ok, a.oks), now);
  }

  lemma TransmittedGathers(s: Runner, o: I.Out, now: nat)
    requires CanGather(s) && s.current.phase == Transmit && I.LinkOk(o.link)
    ensures Gathers(s, MessageOutcome(s, o, now))
  {
    if o.event == I.Sent {
      FinishTransmitGathers(WithLink(s, o, now), now);
    }
    EmittedPlainly(s, o.frames, MessageFollows(s, o, now));
  }

  lemma FrameGathers(s: Runner, now: nat, ok: bool)
    requires CanGather(s) && s.current.phase == Transmit && !IsIsotpStep(s)
    ensures Gathers(s, TransmitFrame(s, now, ok))
  {
    FrontAccepted(s);
    if ok {
      var sent := Timed(s, now).(lastFrameUs := now);
      FinishTransmitGathers(sent, now);
      EmittedPlainly(s, [StepFrame(s)], FinishTransmit(sent, now));
    }
  }

  lemma SettleGathers(s: Runner, now: nat)
    requires CanGather(s) && s.current.phase == Wait
    ensures Gathers(s, Settle(s, now))
  {
    if s.current.satisfied {
      CompleteGathers(s);
    } else if s.current.extendRequested {
      var t := CurrentTemplate(s);
      CompleteGathers(s.(current := s.current.(extendRequested := false, deadlineUs := now + ExtendTimeoutUs(t))));
    } else {
      CompleteGathers(s);
    }
  }

  lemma WaitGathers(s: Runner, o: I.Out, now: nat)
    requires CanGather(s) && s.current.phase == Wait && I.LinkOk(o.link)
    ensures Gathers(s, WaitOutcome(s, o, now))
  {
    if o.event != I.Failed {
      SettleGathers(WithLink(s, o, now), now);
    }
    EmittedPlainly(s, o.frames, WaitFollows(s, o, now));
  }

  lemma OnceGathers(s: Runner, now: nat, a: Answers)
    requires CanGather(s)
    ensures Gathers(s, RunOnce(s, now, a))
  {
    match s.current.phase
    case Idle => LoadGathers(s, now, a);
    case Transmit => TransmitGathers(s, now, a);
    case Wait =>
      if IsIsotpStep(s) {
        WaitGathers(s, I.Tick(s.link, now, a.ok, a.oks), now);
      } else {
        SettleGathers(s, now);
      }
  }

  // ---------- calls ----------

  predicate KeptGathering(s: Runner, r: Result) {
    Kept(s, r) && Gathers(s, r) && OpenAfterRing(s).Some?
  }

  lemma GatheringChains()
    ensures Chains(CanGather, KeptGathering)
  {
    forall x, r, q | KeptGathering(x, r) && r.next.active && KeptGathering(r.next, q)
      ensures KeptGathering(x, After(r.outputs, q))
    {
      KeptChains(x, r, q);
    }
  }

  lemma PassGathers(s: Runner, now: nat, a: Option<Answers>)
    requires CanGather(s)
    ensures KeptGathering(s, Pass(now)(s, a))
  {
    OnceGathers(s, now, if a.Some? then a.value else NO_ANSWERS);
  }

  lemma RepeatGathers(s: Runner, now: nat, answers: seq<Answers>)
    requires CanGather(s)
    ensures KeptGathering(s, Repeat(Pass(now), s, StepsPerTick(), answers))
  {
    GatheringChains();
    forall x, a: Option<Answers> | CanGather(x) ensures KeptGathering(x, Pass(now)(x, a)) {
      PassGathers(x, now, a);
    }
    RepeatChains(Pass(now), CanGather, KeptGathering, s, StepsPerTick(), answers);
  }

  lemma TickGathers(s: Runner, now: nat, answers: seq<Answers>)
    requires CanGather(s)
    ensures Gathers(s, Tick(s, now, answers))
  {
    var timed := s.(lastTickUs := now);
    RepeatGathers(timed, now, answers);
    var run := Repeat(Pass(now), timed, StepsPerTick(), answers);
    if run.next.active {
      FlushGathers(run.next, now);
    }
  }

  lemma FlushGathers(s: Runner, now: nat)
    ensures Gathers(s, Flushed(s, now))
  {
  }

  lemma OnFrameGathers(s: Runner, interfaceIndex: u8, f: Frame, ok: bool)
    requires CanGather(s)
    ensures Gathers(s, OnFrame(s, interfaceIndex, f, ok))
  {
    DispatchWatches(s, f, ok);
  }

  lemma AbortGathers(s: Runner, txnId: u16)
    requires CanGather(s)
    ensures Gathers(s, Abort(s, txnId))
  {
  }

  // ---------- a message byte for byte ----------

  /** The records of one message: all but the last continued, together no longer than a message may be. */
  predicate AreMessage(records: seq<TxnStep>, open: nat) {
    && records != [] && records[0].isMessage && !records[0].expectOnly
    && open + |records[0].payload| <= I.MESSAGE_SIZE_MAX
    && (records[0].isContinued <==> |records| > 1)
    && (|records| > 1 ==> AreMessage(records[1..], open + |records[0].payload|))
  }

  function PayloadsOf(records: seq<TxnStep>): seq<u8> {
    if records == [] then [] else records[0].payload + PayloadsOf(records[1..])
  }

  /** The message has been gathered: its step is to be transmitted next. */
  predicate Ready(s: Runner, message: seq<u8>, last: TxnStep, rest: seq<TxnStep>, n: Runner) {
    && n.active && n.current.phase == Transmit && !n.current.messageStarted
    && n.message == message && n.current.step == last && n.ledger.queue == [last] + rest
    && n.session == s.session && n.defs == s.defs
  }

  /** A record of a message is at the front, and fits. */
  predicate CanGatherOne(s: Runner, continued: bool) {
    && Running(s) && s.current.phase == Idle && s.ledger.queue != []
    && var first := s.ledger.queue[0];
      && first.isMessage && !first.expectOnly && first.isContinued == continued
      && |s.message| + |first.payload| <= I.MESSAGE_SIZE_MAX
  }

  /** The record has joined the message, and the next one may. */
  predicate Joined(s: Runner, r: Result) {
    && s.ledger.queue != [] && r.again && r.outputs == [] && Running(r.next) && r.next.current.phase == Idle
    && r.next.message == s.message + s.ledger.queue[0].payload && r.next.ledger.queue == s.ledger.queue[1..]
    && r.next.session == s.session && r.next.defs == s.defs
  }

  /** The last record has joined the message. */
  predicate Closed(s: Runner, r: Result) {
    && s.ledger.queue != [] && r.again && r.outputs == []
    && Ready(s, s.message + s.ledger.queue[0].payload, s.ledger.queue[0], s.ledger.queue[1..], r.next)
  }

  lemma PassCloses(s: Runner, now: nat, a: Option<Answers>)
    requires CanGatherOne(s, false)
    ensures Closed(s, Pass(now)(s, a))
  {
    FrontAccepted(s);
  }

  lemma PassJoins(s: Runner, now: nat, a: Option<Answers>)
    requires CanGatherOne(s, true)
    ensures Joined(s, Pass(now)(s, a))
  {
    FrontAccepted(s);
  }

  lemma {:induction false} PassesGather(
    pass: (Runner, Option<Answers>) -> Result, s: Runner, answers: seq<Answers>, records: seq<TxnStep>, rest: seq<TxnStep>)
    requires forall x, a | CanGatherOne(x, true) :: Joined(x, pass(x, a))
    requires forall x, a | CanGatherOne(x, false) :: Closed(x, pass(x, a))
    requires Running(s) && s.current.phase == Idle
    requires s.ledger.queue == records + rest && AreMessage(records, |s.message|)
    ensures var r := Repeat(pass, s, |records|, answers);
      r.outputs == [] && Ready(s, s.message + PayloadsOf(records), records[|records| - 1], rest, r.next)
    decreases |records|
  {
    var first := pass(s, Head(answers));
    assert (records + rest)[0] == records[0] && s.ledger.queue[1..] == records[1..] + rest;
    if |records| == 1 {
      assert CanGatherOne(s, false);
      assert Repeat(pass, first.next, 0, Tail(answers)) == Result(first.next, [], true);
      assert PayloadsOf(records) == records[0].payload + [];
      assert s.ledger.queue[1..] == rest;
    } else {
      assert CanGatherOne(s, true);
      PassesGather(pass, first.next, Tail(answers), records[1..], rest);
      assert s.message + (records[0].payload + PayloadsOf(records[1..]))
          == (s.message + records[0].payload) + PayloadsOf(records[1..]);
    }
  }

  /** One pass a record, and the message stands ready whole; nothing else happens on the way. */
  lemma MessageGathered(s: Runner, now: nat, answers: seq<Answers>, records: seq<TxnStep>, rest: seq<TxnStep>)
    requires Running(s) && s.current.phase == Idle
    requires s.ledger.queue == records + rest && AreMessage(records, |s.message|)
    ensures var r := Repeat(Pass(now), s, |records|, answers);
      r.outputs == [] && Ready(s, s.message + PayloadsOf(records), records[|records| - 1], rest, r.next)
  {
    forall x, a | CanGatherOne(x, true) ensures Joined(x, Pass(now)(x, a)) {
      PassJoins(x, now, a);
    }
    forall x, a | CanGatherOne(x, false) ensures Closed(x, Pass(now)(x, a)) {
      PassCloses(x, now, a);
    }
    PassesGather(Pass(now), s, answers, records, rest);
  }
}
