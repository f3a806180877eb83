/**
  The messages that the records in the agent's ring will become
  (src/agent/domain/transaction_runner.c): whatever the agent does, they stay
  the same, in the same order, and the first leaves only when the link has sent it.
 */
module MessageFlow {
  import opened Frames
  import opened StepCodec
  import opened AgentRules
  import opened TransactionRunner
  import opened RunnerMessages
  import I = IsotpLink

  /** Whole messages in the order they will be sent, and what is left open behind them. */
  datatype Flow = Flow(messages: seq<seq<u8>>, open: seq<u8>)

  /** The record closes a message that is to be sent. */
  predicate Sends(s: TxnStep) {
    s.isMessage && !s.isContinued && !s.expectOnly
  }

  function FlowOf(open: seq<u8>, records: seq<TxnStep>): Flow
    decreases |records|
  {
    if records == [] then Flow([], open)
    else
      var first := records[0];
      var rest := FlowOf(if first.isContinued then open + first.payload else [], records[1..]);
      if Sends(first) then Ahead(open + first.payload, rest) else rest
  }

  function Ahead(message: seq<u8>, flow: Flow): Flow {
    flow.(messages := [message] + flow.messages)
  }

  /** Of the whole ring; a step being transmitted has its message gathered already, a step that waits has sent it. */
  function RingFlow(s: Runner): Flow {
    if s.current.phase == Idle then FlowOf(s.message, s.ledger.queue)
    else if s.ledger.queue == [] then Flow([], [])
    else
      var rest := FlowOf([], s.ledger.queue[1..]);
      if s.current.phase == Transmit && Sends(s.ledger.queue[0]) then Ahead(s.message, rest) else rest
  }

  predicate Unchanged(s: Runner, r: Result) {
    r.next.active ==> RingFlow(r.next) == RingFlow(s)
  }

  /** The first message is gone from the flow. */
  predicate FirstGone(s: Runner, r: Result) {
    r.next.active ==> RingFlow(s) == Ahead(s.message, RingFlow(r.next))
  }

  predicate IsSuffix<A(==)>(part: seq<A>, whole: seq<A>) {
    |part| <= |whole| && whole[|whole| - |part|..] == part
  }

  lemma SuffixOfSuffix<A>(a: seq<A>, b: seq<A>, c: seq<A>)
    requires IsSuffix(a, b) && IsSuffix(b, c)
    ensures IsSuffix(a, c)
  {
  }

  lemma SuffixGrows<A>(a: seq<A>, b: seq<A>, more: seq<A>)
    requires IsSuffix(a, b)
    ensures IsSuffix(a + more, b + more)
  {
  }

  /** Messages only ever leave from the front. */
  predicate Flows(s: Runner, r: Result) {
    r.next.active ==>
      RingFlow(r.next).open == RingFlow(s).open && IsSuffix(RingFlow(r.next).messages, RingFlow(s).messages)
  }

  // ---------- steps ----------

  lemma CompleteFlows(s: Runner)
    requires Running(s) && s.current.phase != Idle
    ensures RingFlow(CompleteStep(s).next) == FlowOf([], s.ledger.queue[1..])
  {
  }

  lemma FinishTransmitFlows(s: Runner, now: nat)
    requires Running(s) && s.current.phase == Transmit
    ensures RingFlow(FinishTransmit(s, now).next) == FlowOf([], s.ledger.queue[1..])
  {
    var spaced := s.(nextTransmitUs := now + CurrentTemplate(s).gapUs);
    if !IsWaitingMode(CurrentTemplate(s).mode) {
      CompleteFlows(spaced);
    }
  }

  lemma WatchesUnchanged(s: Runner, r: Result)
    requires OnlyWatches(s, r)
    ensures Unchanged(s, r)
  {
  }

  /** A loaded step starts with the message gathered for it. */
  lemma StartFlows(s: Runner, now: nat, a: Answers)
    requires Running(s) && IsLoaded(s) && !s.current.step.isContinued
    ensures var r, rest := StartStep(s, now, a), FlowOf([], s.ledger.queue[1..]);
      r.next.active ==> RingFlow(r.next) == if Sends(s.ledger.queue[0]) then Ahead(s.message, rest) else rest
  {
    FrontAccepted(s);
    if s.current.step.expectOnly {
      var waits := StartWait(Opened(s), now).(early := []);
      ReplayWatches(waits, s.early, a.oks);
      WatchesUnchanged(waits, ReplayFrames(waits, s.early, a.oks));
    }
  }

  lemma MessageFlows(s: Runner, now: nat, a: Answers)
    requires Running(s) && IsLoaded(s) && s.current.step.isMessage
    ensures var r := GatherMessage(s, now, a);
      r.next.active ==> RingFlow(r.next) == FlowOf(s.message, s.ledger.queue)
  {
    var step := s.current.step;
    if |s.message| + |step.payload| <= I.MESSAGE_SIZE_MAX && !step.isContinued {
      StartFlows(s.(message := s.message + step.payload), now, a);
    }
  }

  lemma LoadFlows(s: Runner, now: nat, a: Answers)
    requires Running(s) && s.current.phase == Idle
    ensures Unchanged(s, LoadNextStep(s, now, a))
  {
    if s.ledger.queue != [] {
      FrontAccepted(s);
      var loaded := Loaded(s);
      if loaded.current.step.isMessage {
        MessageFlows(loaded, now, a);
      } else {
        StartFlows(loaded, now, a);
      }
    }
  }

  /** What an ISO-TP step has to transmit is the first message of the flow. */
  lemma TransmittedIsFirst(s: Runner)
    requires Running(s) && s.current.phase == Transmit
    ensures IsIsotpStep(s) <==> Sends(s.ledger.queue[0])
    ensures IsIsotpStep(s) ==> RingFlow(s) == Ahead(s.message, FlowOf([], s.ledger.queue[1..]))
    ensures !IsIsotpStep(s) ==> RingFlow(s) == FlowOf([], s.ledger.queue[1..])
  {
    FrontAccepted(s);
  }

  lemma OutcomeFlows(s: Runner, o: I.Out, now: nat)
    requires Running(s) && IsIsotpStep(s) && s.current.phase == Transmit && I.LinkOk(o.link)
    ensures if o.event == I.Sent then FirstGone(s, MessageOutcome(s, o, now)) else Unchanged(s, MessageOutcome(s, o, now))
  {
    TransmittedIsFirst(s);
    if o.event == I.Sent {
      FinishTransmitFlows(WithLink(s, o, now), now);
    }
  }

  /** What the link makes of the message in this pass. */
  function LinkTick(s: Runner, now: nat, a: Answers): I.Out
    requires Running(s) && s.current.phase == Transmit
  {
    I.Tick(StartedMessage(s, now).link, now, a.ok, a.oks)
  }

  /** The link has sent the message of the step in this pass. */
  predicate SentNow(s: Runner, now: nat, a: Answers)
    requires Running(s)
  {
    && s.current.phase == Transmit && IsIsotpStep(s) && now >= s.nextTransmitUs && now >= s.current.retryAtUs
    && LinkTick(s, now, a).event == I.Sent
  }

  lemma FrameFlows(s: Runner, now: nat, ok: bool)
    requires Running(s) && s.current.phase == Transmit && !IsIsotpStep(s)
    ensures Unchanged(s, TransmitFrame(s, now, ok))
  {
    TransmittedIsFirst(s);
    if ok {
      FinishTransmitFlows(Timed(s, now).(lastFrameUs := now), now);
    }
  }

  lemma StartedFlows(s: Runner, now: nat, a: Answers)
    requires Running(s) && IsIsotpStep(s) && s.current.phase == Transmit
    ensures var r := TransmitMessage(s, now, a);
      if LinkTick(s, now, a).event == I.Sent then FirstGone(s, r) else Unchanged(s, r)
  {
    OutcomeFlows(StartedMessage(s, now), LinkTick(s, now, a), now);
  }

  lemma TransmitFlows(s: Runner, now: nat, a: Answers)
    requires Running(s) && s.current.phase == Transmit
    ensures if SentNow(s, now, a) then FirstGone(s, TransmitStep(s, now, a)) else Unchanged(s, TransmitStep(s, now, a))
  {
    if now >= s.nextTransmitUs && now >= s.current.retryAtUs {
      if IsIsotpStep(s) {
        StartedFlows(s, now, a);
        assert TransmitStep(s, now, a) == TransmitMessage(s, now, a);
      } else {
        FrameFlows(s, now, a.ok);
        assert TransmitStep(s, now, a) == TransmitFrame(s, now, a.ok);
      }
    }
  }

  lemma SettleFlows(s: Runner, now: nat)
    requires Running(s) && s.current.phase == Wait
    ensures Unchanged(s, Settle(s, now))
  {
    CompleteFlows(s);
    var t := CurrentTemplate(s);
    CompleteFlows(s.(current := s.current.(extendRequested := false, deadlineUs := now + ExtendTimeoutUs(t))));
  }

  lemma WaitFlows(s: Runner, o: I.Out, now: nat)
    requires Running(s) && s.current.phase == Wait && I.LinkOk(o.link)
    ensures Unchanged(s, WaitOutcome(s, o, now))
  {
    if o.event != I.Failed {
      SettleFlows(WithLink(s, o, now), now);
    }
  }

  /**
    In a pass the first message leaves exactly when the link has sent it; else all stay as
    they are, whatever is gathered, waited for or answered.
   */
  lemma OnceFlows(s: Runner, now: nat, a: Answers)
    requires Running(s)
    ensures if SentNow(s, now, a) then FirstGone(s, RunOnce(s, now, a)) else Unchanged(s, RunOnce(s, now, a))
  {
    match s.current.phase
    case Idle => LoadFlows(s, now, a);
    case Transmit => TransmitFlows(s, now, a);
    case Wait =>
      if IsIsotpStep(s) {
        WaitFlows(s, I.Tick(s.link, now, a.ok, a.oks), now);
      } else {
        SettleFlows(s, now);
      }
  }

  // ---------- calls ----------

  predicate KeptFlow(s: Runner, r: Result) {
    Kept(s, r) && Flows(s, r)
  }

  lemma FlowChains()
    ensures Chains(Running, KeptFlow)
  {
    forall x, r, q | KeptFlow(x, r) && r.next.active && KeptFlow(r.next, q) ensures KeptFlow(x, After(r.outputs, q)) {
      KeptChains(x, r, q);
    }
  }

  lemma PassFlows(s: Runner, now: nat, a: Option<Answers>)
    requires Running(s)
    ensures KeptFlow(s, Pass(now)(s, a))
  {
    OnceFlows(s, now, if a.Some? then a.value else NO_ANSWERS);
  }

  lemma RepeatFlows(s: Runner, now: nat, answers: seq<Answers>)
    requires Running(s)
    ensures KeptFlow(s, Repeat(Pass(now), s, StepsPerTick(), answers))
  {
    FlowChains();
    forall x, a: Option<Answers> | Running(x) ensures KeptFlow(x, Pass(now)(x, a)) {
      PassFlows(x, now, a);
    }
    RepeatChains(Pass(now), Running, KeptFlow, s, StepsPerTick(), answers);
  }

  lemma FlushFlows(s: Runner, now: nat)
    ensures RingFlow(Flushed(s, now).next) == RingFlow(s)
  {
  }

  lemma TickFlows(s: Runner, now: nat, answers: seq<Answers>)
    requires Running(s)
    ensures Flows(s, Tick(s, now, answers))
  {
    var timed := s.(lastTickUs := now);
    RepeatFlows(timed, now, answers);
    var run := Repeat(Pass(now), timed, StepsPerTick(), answers);
    if run.next.active {
      FlushFlows(run.next, now);
    }
  }

  lemma OnFrameFlows(s: Runner, interfaceIndex: u8, f: Frame, ok: bool)
    requires Running(s)
    ensures Unchanged(s, OnFrame(s, interfaceIndex, f, ok))
  {
    DispatchWatches(s, f, ok);
    WatchesUnchanged(s, DispatchFrame(s, f, ok));
  }

  // ---------- more records ----------

  /** One flow after the other. */
  function Then(first: Flow, rest: Flow): Flow {
    Flow(first.messages + rest.messages, rest.open)
  }

  lemma {:induction false} FlowBoth(open: seq<u8>, some: seq<TxnStep>, more: seq<TxnStep>)
    ensures var first := FlowOf(open, some); FlowOf(open, some + more) == Then(first, FlowOf(first.open, more))
    decreases |some|
  {
    if some == [] {
      assert some + more == more;
    } else {
      var first := some[0];
      assert (some + more)[1..] == some[1..] + more;
      FlowBoth(if first.isContinued then open + first.payload else [], some[1..], more);
    }
  }

  lemma {:induction false} CarriedFlow(open: seq<u8>, steps: seq<TxnStep>)
    ensures FlowOf(open, CarriedAll(steps)) == FlowOf(open, steps)
    decreases |steps|
  {
    if steps != [] {
      var first := steps[0];
      assert CarriedAll(steps)[1..] == CarriedAll(steps[1..]);
      CarriedFlow(if first.isContinued then open + first.payload else [], steps[1..]);
    }
  }

  /** Records that reach the ring follow what is there. */
  lemma RingFlowGrows(s: Runner, n: Runner, steps: seq<TxnStep>)
    requires Running(s) && n == s.(ledger := n.ledger) && n.ledger.queue == s.ledger.queue + CarriedAll(steps)
    ensures RingFlow(n) == Then(RingFlow(s), FlowOf(RingFlow(s).open, steps))
  {
    CarriedFlow(RingFlow(s).open, steps);
    if s.current.phase == Idle {
      FlowBoth(s.message, s.ledger.queue, CarriedAll(steps));
    } else {
      assert n.ledger.queue[1..] == s.ledger.queue[1..] + CarriedAll(steps);
      FlowBoth([], s.ledger.queue[1..], CarriedAll(steps));
    }
  }
}
