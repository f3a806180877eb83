/**
  The runner as the agent runs it: an object over a byte ring and an ISO-TP
  link, changed in place, proved to follow the functions of module
  TransactionRunner. What the port is told is appended to `log`.
 */
module RunnerEngine {
  import opened Frames
  import opened MachineWords
  import opened ByteStrings
  import opened StepCodec
  import opened AgentRules
  import opened TransactionRunner
  import Ring = StepRing
  import opened IsotpEngine
  import Spec = TransactionRunner
  import I = IsotpLink

  // ---------- records as the ring holds them ----------

  predicate IsRecord(r: seq<u8>) {
    Decode(r).Some? && Decode(r).value.size == |r|
  }

  function StepOf(r: seq<u8>): TxnStep {
    if Decode(r).Some? then Decode(r).value.item else NO_STEP
  }

  function StepsOf(records: seq<seq<u8>>): (steps: seq<TxnStep>)
    ensures |steps| == |records|
  {
    seq(|records|, i requires 0 <= i < |records| => StepOf(records[i]))
  }

  lemma ReadU32Local(a: seq<u8>, b: seq<u8>)
    requires |a| >= 4 && a <= b
    ensures ReadU32(a) == ReadU32(b)
  {
  }

  lemma ReadU64Local(a: seq<u8>, b: seq<u8>)
    requires |a| >= 8 && a <= b
    ensures ReadU64(a) == ReadU64(b)
  {
    ReadU32Local(a, b);
    ReadU32Local(a[4..], b[4..]);
  }

  /** A record is read the same whatever follows it in the ring. */
  lemma DecodesInPlace(r: seq<u8>, available: seq<u8>)
    requires IsRecord(r) && r <= available
    ensures Decode(available) == Decode(r)
  {
    ReadU32Local(r[4..], available[4..]);
    var length: nat := r[2];
    var at := RECORD_HEADER_SIZE + PaddedSize(length);
    assert r[..RECORD_HEADER_SIZE] == available[..RECORD_HEADER_SIZE];
    assert r[RECORD_HEADER_SIZE..RECORD_HEADER_SIZE + length] == available[RECORD_HEADER_SIZE..RECORD_HEADER_SIZE + length];
    if StepOf(r).expectsValue {
      ReadU64Local(r[at..], available[at..]);
    }
  }

  /** The record at the front of a batch, cut out, is read the same. */
  lemma DecodesAlone(records: seq<u8>)
    requires Decode(records).Some?
    ensures var r := records[..Decode(records).value.size]; Decode(r) == Decode(records)
  {
    var size := Decode(records).value.size;
    var r := records[..size];
    var length: nat := records[2];
    var at := RECORD_HEADER_SIZE + PaddedSize(length);
    ReadU32Local(r[4..], records[4..]);
    assert r[RECORD_HEADER_SIZE..RECORD_HEADER_SIZE + length] == records[RECORD_HEADER_SIZE..RECORD_HEADER_SIZE + length];
    if Decode(records).value.item.expectsValue {
      ReadU64Local(r[at..], records[at..]);
    }
  }

  lemma {:induction false} BytesInRing(records: seq<seq<u8>>)
    requires forall r | r in records :: IsRecord(r)
    ensures |Concat(records)| == Bytes(StepsOf(records))
    decreases |records|
  {
    if records != [] {
      BytesInRing(records[1..]);
      assert StepsOf(records)[1..] == StepsOf(records[1..]);
      assert records[0] in records;
    }
  }

  /**
    The ring as the runner sees it: the steps it holds.

    Validity is kept opaque to the runner's proofs, which only pass it on: Valid() is Whole()
    behind a recursion of `seal` levels that the verifier does not unfold by itself. `seal` means
    nothing else. The methods here unwrap it with Open and wrap it again with Close.
   */
  class StepQueue {
    const ring: Ring.StepRing
    ghost const seal: nat
    ghost var steps: seq<TxnStep>

    ghost predicate Whole()
      reads this, ring, ring.storage
    {
      && ring.Valid() && steps == StepsOf(ring.records)
      && forall r | r in ring.records :: IsRecord(r)
    }

    ghost predicate SealedBy(n: nat)
      reads this, ring, ring.storage
    {
      if n == 0 then Whole() else SealedBy(n - 1)
    }

    ghost predicate Valid()
      reads this, ring, ring.storage
    {
      seal > 3 && SealedBy(seal)
    }

    lemma {:induction false} Open(n: nat)
      requires SealedBy(n)
      ensures Whole()
    {
      if n > 0 {
        Open(n - 1);
      }
    }

    lemma {:induction false} Close(n: nat)
      requires Whole()
      ensures SealedBy(n)
    {
      if n > 0 {
        Close(n - 1);
      }
    }

    constructor (capacity: nat)
      ensures Valid() && steps == [] && fresh(ring) && fresh(ring.storage) && ring.storage.Length == capacity
    {
      ring := new Ring.StepRing(capacity);
      seal, steps := 4, [];
      new;
      Close(seal);
    }

    method Clear()
      requires Valid()
      modifies this, ring
      ensures Valid() && steps == []
    {
      ring.Clear();
      steps := [];
      Close(seal);
    }

    /** A record that keeps the ring's bytes within its capacity less one largest record is always taken. */
    method Push(record: seq<u8>) returns (ok: bool)
      requires Valid() && IsRecord(record)
      modifies this, ring, ring.storage
      ensures Valid() && steps == old(steps) + if ok then [StepOf(record)] else []
      ensures Bytes(old(steps)) + |record| + RECORD_SIZE_MAX <= ring.storage.Length ==> ok
    {
      Open(seal);
      BytesInRing(ring.records);
      ok := ring.Push(record);
      if ok {
        steps := steps + [StepOf(record)];
      }
      Close(seal);
    }

    /** What can be read in one piece begins with the oldest step's record. */
    method Peek() returns (available: seq<u8>)
      requires Valid()
      ensures available == [] <==> steps == []
      ensures steps != [] ==> Decode(available) == Some(Taken(steps[0], RecordSize(steps[0])))
    {
      Open(seal);
      available := ring.Peek();
      if available != [] {
        assert ring.records[0] in ring.records;
        DecodesInPlace(ring.records[0], available);
      }
    }

    method IsEmpty() returns (empty: bool)
      requires Valid()
      ensures empty <==> steps == []
    {
      Open(seal);
      var available := ring.Peek();
      empty := available == [];
    }

    method Release(size: nat)
      requires Valid() && steps != [] && size == RecordSize(steps[0])
      modifies this, ring
      ensures Valid() && steps == old(steps)[1..]
    {
      Open(seal);
      assert ring.records[0] in ring.records;
      ring.Release(size);
      steps := steps[1..];
      Close(seal);
    }
  }

  /** The link as the runner sees it: its state, and the frames each call put on the bus; opaque in the way the ring is. */
  class LinkPort {
    const machine: LinkMachine
    const bus: Bus
    ghost const seal: nat
    ghost var state: I.Link

    ghost predicate Whole()
      reads this, machine, machine.message
    {
      machine.Valid() && machine.bus == bus && state == machine.State()
    }

    ghost predicate SealedBy(n: nat)
      reads this, machine, machine.message
    {
      if n == 0 then Whole() else SealedBy(n - 1)
    }

    ghost predicate Valid()
      reads this, machine, machine.message
    {
      seal > 3 && SealedBy(seal)
    }

    lemma {:induction false} Open(n: nat)
      requires SealedBy(n)
      ensures Whole()
    {
      if n > 0 {
        Open(n - 1);
      }
    }

    lemma {:induction false} Close(n: nat)
      requires Whole()
      ensures SealedBy(n)
    {
      if n > 0 {
        Close(n - 1);
      }
    }

    constructor ()
      ensures Valid() && state == I.Closed() && fresh(machine) && fresh(machine.message) && fresh(bus)
    {
      var port := new Bus();
      var link := new LinkMachine(port);
      bus, machine, seal, state := port, link, 4, link.State();
      new;
      Close(seal);
    }

    method Transmit(frame: Frame) returns (ok: bool)
      modifies bus
    {
      ok := bus.Transmit(frame);
    }

    method OpenFor(requestId: u32, channel: u8, params: I.Params)
      requires Valid() && I.ParamsOk(params)
      modifies this, machine
      ensures Valid() && state == I.Open(old(state), requestId, channel, params)
    {
      Open(seal);
      machine.Open(requestId, channel, params);
      state := machine.State();
      Close(seal);
    }

    method Send(message: seq<u8>, now: nat)
      requires Valid() && |message| <= I.MESSAGE_SIZE_MAX
      modifies this, machine
      ensures Valid() && state == I.Send(old(state), message, now)
    {
      Open(seal);
      machine.Send(message, now);
      state := machine.State();
      Close(seal);
    }

    method OnFrame(frame: Frame, now: nat) returns (event: I.Event, frames: seq<Frame>, ghost ok: bool)
      requires Valid() && I.LinkOk(state)
      modifies this, machine, machine.message, bus
      ensures Valid() && I.Out(state, event, frames) == I.OnFrame(old(state), frame, now, ok)
    {
      Open(seal);
      var before := |bus.sent|;
      event, ok := machine.OnFrame(frame, now);
      frames := bus.sent[before..];
      state := machine.State();
      Close(seal);
    }

    method Tick(now: nat) returns (event: I.Event, frames: seq<Frame>, ghost ok: bool, ghost oks: seq<bool>)
      requires Valid() && I.LinkOk(state)
      modifies this, machine, bus
      ensures Valid() && I.Out(state, event, frames) == I.Tick(old(state), now, ok, oks)
    {
      Open(seal);
      var before := |bus.sent|;
      event, ok, oks := machine.Tick(now);
      frames := bus.sent[before..];
      state := machine.State();
      Close(seal);
    }

    method FailureReason() returns (reason: I.Reason)
      requires Valid()
      ensures reason == state.failure
    {
      Open(seal);
      reason := machine.failure;
    }

    method NextWake() returns (wake: nat)
      requires Valid()
      ensures wake == I.NextWakeUs(state)
    {
      Open(seal);
      wake := machine.NextWake();
    }

    method MessageFrame() returns (frame: Frame)
      requires Valid() && I.LinkOk(state)
      ensures frame == Spec.MessageFrame(state)
    {
      Open(seal);
      frame := machine.MessageFrame();
    }
  }

  // ---------- loops answered by the bus ----------

  /** After `i` passes answered by `answers`, `done` is what the loop has done so far, whatever answers follow. */
  ghost predicate PassedSoFar<A(!new)>(
    pass: (Runner, Option<A>) -> Result, start: Runner, budget: nat, i: nat, answers: seq<A>, done: Result)
    requires i <= budget
  {
    forall rest :: Repeat(pass, start, budget, answers + rest)
      == if done.again then After(done.outputs, Repeat(pass, done.next, budget - i, rest)) else done
  }

  lemma PassStart<A(!new)>(pass: (Runner, Option<A>) -> Result, start: Runner, budget: nat)
    ensures PassedSoFar(pass, start, budget, 0, [], Result(start, [], true))
  {
    forall rest: seq<A>
      ensures Repeat(pass, start, budget, [] + rest) == After([], Repeat(pass, start, budget, rest))
    {
      assert [] + rest == rest;
    }
  }

  lemma Told(a: seq<Output>, b: seq<Output>, c: seq<Output>)
    ensures a + b + c == a + (b + c)
  {
  }

  lemma AfterAfter(a: seq<Output>, b: seq<Output>, r: Result)
    ensures After(a, After(b, r)) == After(a + b, r)
  {
    assert a + (b + r.outputs) == a + b + r.outputs;
  }

  lemma PassStep<A(!new)>(
    pass: (Runner, Option<A>) -> Result, start: Runner, budget: nat, i: nat, answers: seq<A>, done: Result, a: A, first: Result)
    requires i < budget && done.again && PassedSoFar(pass, start, budget, i, answers, done)
    requires first == pass(done.next, Some(a))
    ensures PassedSoFar(pass, start, budget, i + 1, answers + [a],
                        After(done.outputs, first.(again := first.next.active && first.again)))
  {
    forall rest: seq<A>
      ensures Repeat(pass, start, budget, answers + [a] + rest)
        == if first.next.active && first.again
           then After(done.outputs + first.outputs, Repeat(pass, first.next, budget - i - 1, rest))
           else After(done.outputs, first.(again := false))
    {
      assert answers + [a] + rest == answers + ([a] + rest);
      assert Head([a] + rest) == Some(a) && Tail([a] + rest) == rest;
      AfterAfter(done.outputs, first.outputs, Repeat(pass, first.next, budget - i - 1, rest));
    }
  }

  lemma PassEnd<A(!new)>(
    pass: (Runner, Option<A>) -> Result, start: Runner, budget: nat, i: nat, answers: seq<A>, rest: seq<A>, done: Result)
    requires i <= budget && PassedSoFar(pass, start, budget, i, answers, done) && (i == budget || !done.again)
    ensures Repeat(pass, start, budget, answers + rest) == done
  {
    assert Repeat(pass, start, budget, answers + rest)
        == if done.again then After(done.outputs, Repeat(pass, done.next, budget - i, rest)) else done;
    assert done.outputs + [] == done.outputs;
  }

  lemma NextReplay(
    pass: (Runner, Option<(Frame, bool)>) -> Result, start: Runner, frames: seq<Frame>, answers: seq<(Frame, bool)>,
    done: Result, ok: bool, first: Result)
    returns (more: seq<(Frame, bool)>, next: Result)
    requires |answers| < |frames| && (forall k | 0 <= k < |answers| :: answers[k].0 == frames[k])
    requires done.again && PassedSoFar(pass, start, |frames|, |answers|, answers, done)
    requires first == pass(done.next, Some((frames[|answers|], ok))) && first.again == first.next.active
    ensures |more| == |answers| + 1 && forall k | 0 <= k < |more| :: more[k].0 == frames[k]
    ensures PassedSoFar(pass, start, |frames|, |more|, more, next)
    ensures next == After(done.outputs, first)
  {
    PassStep(pass, start, |frames|, |answers|, answers, done, (frames[|answers|], ok), first);
    more, next := answers + [(frames[|answers|], ok)], After(done.outputs, first);
  }

  /** The fields of the runner's structure, but for the ring and the link. */
  datatype Fields = Fields(
    active: bool, session: Session, defs: Definitions,
    nextSeq: u32, stepsEnded: bool, completed: u32, pushed: u32, consumed: u32, reported: u32,
    reportDueUs: nat, starveDeadlineUs: nat, nextTransmitUs: nat, lastTickUs: nat, lastFrameUs: nat,
    current: ActiveStep, message: seq<u8>, early: seq<Frame>)

  const NO_FIELDS := Fields(
    false, Session(0, 0, 0, STARVATION_TIMEOUT_US, Keepalive(0, 0, 0, [])), NO_DEFINITIONS,
    0, false, 0, 0, 0, 0, 0, 0, 0, 0, 0, NOTHING, [], [])

  function Whole(window: u32, f: Fields, queue: seq<TxnStep>, link: I.Link): Runner {
    Runner(window, f.active, f.session, f.defs,
           Ledger(queue, f.nextSeq, f.stepsEnded, f.completed, f.pushed, f.consumed),
           f.reported, f.reportDueUs, f.starveDeadlineUs, f.nextTransmitUs, f.lastTickUs, f.lastFrameUs,
           f.current, link, f.message, f.early)
  }

  class RunnerMachine {
    const queue: StepQueue
    const link: LinkPort
    const window: u32
    var f: Fields
    var log: seq<Output>

    ghost function State(): Runner
      reads this, queue, link
    {
      Whole(window, f, queue.steps, link.state)
    }

    /** The parts fit together; RunnerOk(State()) is what the functions keep. */
    ghost predicate Valid()
      reads queue, queue.ring, queue.ring.storage, link, link.machine, link.machine.message
    {
      && queue.Valid() && link.Valid()
      && queue.ring.storage.Length == window + RECORD_SIZE_MAX && queue.ring.storage != link.machine.message
    }

    constructor (capacity: u32)
      requires RECORD_SIZE_MAX <= capacity
      ensures Valid() && RunnerOk(State()) && log == []
      ensures State() == Whole(capacity - RECORD_SIZE_MAX, NO_FIELDS, [], I.Closed())
      ensures fresh(queue) && fresh(queue.ring) && fresh(queue.ring.storage)
      ensures fresh(link) && fresh(link.machine) && fresh(link.machine.message) && fresh(link.bus)
    {
      window := capacity - RECORD_SIZE_MAX;
      queue := new StepQueue(capacity);
      link := new LinkPort();
      f := NO_FIELDS;
      log := [];
    }

    // ---------- reports ----------

    method Finish(status: Status)
      requires Valid() && BaseOk(State()) && status.channel == f.session.channel && status.txnId == f.session.txnId
      requires status.done ==> AllDone(State().ledger, status)
      modifies this, queue, queue.ring
      ensures Valid() && State() == Spec.Finish(old(State()), status).next
      ensures log == old(log) + [Finished(status)]
    {
      f := f.(active := false);
      queue.Clear();
      log := log + [Finished(status)];
    }

    method PrepareStatus(done: bool, reason: Reason) returns (status: Status)
      ensures status == Spec.PrepareStatus(State(), done, reason)
    {
      status := Status(f.session.channel, f.session.txnId, done, reason, f.completed, f.completed, f.current.seen, false,
                       f.current.rx, {}, {}, {});
      if f.current.phase != Idle && IsRosterMode(TemplateFor(f.defs, f.current.step.templateId).mode) {
        status := status.(rosterStep := true);
      }
    }

    method AbortWith(reason: Reason, failingSeq: u32)
      requires Valid() && BaseOk(State())
      modifies this, queue, queue.ring
      ensures Valid() && State() == Spec.AbortWith(old(State()), reason, failingSeq).next
      ensures log == old(log) + Spec.AbortWith(old(State()), reason, failingSeq).outputs
    {
      var status := PrepareStatus(false, reason);
      Finish(status.(failingSeq := failingSeq));
    }

    method AbortOnFrame(reason: Reason, frame: Frame, expected: W64, got: W64)
      requires Valid() && BaseOk(State()) && reason != Overrun
      modifies this, queue, queue.ring
      ensures Valid() && State() == Spec.AbortOnFrame(old(State()), reason, frame, expected, got).next
      ensures log == old(log) + Spec.AbortOnFrame(old(State()), reason, frame, expected, got).outputs
    {
      f := f.(current := f.current.(rx := Some(RxOf(frame))));
      var status := PrepareStatus(false, reason);
      Finish(status.(origin := ExtractOrigin(f.defs, frame), expected := expected, got := got));
    }

    method FinishDone()
      requires Valid() && Running(State()) && queue.steps == [] && f.stepsEnded
      modifies this, queue, queue.ring
      ensures Valid() && State() == Spec.FinishDone(old(State())).next
      ensures log == old(log) + Spec.FinishDone(old(State())).outputs
    {
      var status := PrepareStatus(true, NoReason);
      Finish(status);
    }

    method ReportMissingRoster()
      modifies `log
      ensures log == old(log) + MissingReport(State())
    {
      if !IsRosterMode(TemplateFor(f.defs, f.current.step.templateId).mode) || f.current.seenCount >= RosterCount(f.defs) {
        return;
      }
      log := log + [Missing(f.session.channel, f.session.txnId, f.completed, f.current.seen)];
    }

    method ReleaseRecord()
      requires Valid() && queue.steps != [] && f.current.recordSize == RecordSize(queue.steps[0])
      modifies `f, queue, queue.ring
      ensures Valid() && queue.steps == old(queue.steps)[1..]
      ensures f == old(f).(consumed := (old(f.consumed) + old(f.current.recordSize)) % WORD)
    {
      queue.Release(f.current.recordSize);
      f := f.(consumed := (f.consumed + f.current.recordSize) % WORD);
    }

    method CompleteStep()
      requires Valid() && Running(State()) && f.current.phase != Idle
      modifies this, queue, queue.ring
      ensures Valid() && State() == Spec.CompleteStep(old(State())).next
      ensures log == old(log) + Spec.CompleteStep(old(State())).outputs
    {
      ReportMissingRoster();
      ReleaseRecord();
      f := f.(message := [], completed := (f.completed + 1) % WORD, current := f.current.(phase := Idle));
    }

    method StartWait(now: nat)
      requires Running(State()) && CanWait(State())
      modifies `f
      ensures State() == Spec.StartWait(old(State()), now)
    {
      var t := TemplateFor(f.defs, f.current.step.templateId);
      f := f.(current := f.current.(phase := Wait, deadlineUs := now + t.timeoutMs * 1000));
    }

    method FinishTransmit(now: nat)
      requires Valid() && Running(State()) && f.current.phase == Transmit
      modifies this, queue, queue.ring
      ensures Valid() && State() == Spec.FinishTransmit(old(State()), now).next
      ensures log == old(log) + Spec.FinishTransmit(old(State()), now).outputs
    {
      FrontAccepted(State());
      var t := TemplateFor(f.defs, f.current.step.templateId);
      f := f.(nextTransmitUs := now + t.gapUs);
      if !IsWaitingMode(t.mode) {
        CompleteStep();
        return;
      }
      StartWait(now);
    }

    // ---------- frames from the bus ----------

    /** The search for a node in the roster. */
    static method SearchNode(nodes: seq<W32>, origin: W32) returns (index: Option<nat>)
      ensures index == FindNode(nodes, origin)
    {
      for i := 0 to |nodes|
        invariant FindNode(nodes, origin) == FindFrom(nodes, origin, i)
      {
        if nodes[i] == origin {
          return Some(i);
        }
      }
      return None;
    }

    method RecordRosterAnswer(frame: Frame)
      requires Running(State()) && IsWaiting(State()) && CurrentTemplate(State()).mode != MODE_COUNT
      modifies `f
      ensures State() == Spec.RecordRosterAnswer(old(State()), frame)
    {
      var index := SearchNode(Nodes(f.defs), ExtractOrigin(f.defs, frame));
      if index.None? || index.value in f.current.seen {
        return;
      }
      MarkSeen(index.value);
    }

    method MarkSeen(index: nat)
      modifies `f
      ensures f == old(f).(current := AnswerSeen(f.defs, CurrentTemplate(old(State())), old(f.current), index))
    {
      var count := (f.current.seenCount + 1) % 0x100;
      var needed := Needed(f.defs, TemplateFor(f.defs, f.current.step.templateId));
      f := f.(current := f.current.(seen := f.current.seen + {index}, seenCount := count, satisfied := count >= needed));
    }

    method RecordAnswer(frame: Frame)
      requires Running(State()) && IsWaiting(State())
      modifies `f
      ensures State() == Spec.RecordAnswer(old(State()), frame)
    {
      f := f.(current := f.current.(rx := Some(RxOf(frame))));
      var t := TemplateFor(f.defs, f.current.step.templateId);
      if t.mode != MODE_COUNT {
        RecordRosterAnswer(frame);
        return;
      }
      var count := (f.current.matchCount + 1) % 0x100;
      f := f.(current := f.current.(matchCount := count, satisfied := count >= t.countK));
    }

    method MatchFrame(frame: Frame)
      requires Valid() && Running(State()) && IsWaiting(State())
      modifies this, queue, queue.ring
      ensures Valid() && State() == Spec.MatchFrame(old(State()), frame).next
      ensures log == old(log) + Spec.MatchFrame(old(State()), frame).outputs
    {
      var t := TemplateFor(f.defs, f.current.step.templateId);
      var word := ComputePayloadWord(frame.payload);
      var expected := if t.advance.Some? then ExpectedValue(f.current.step, t.advance.value) else {};
      var verdict := JudgeFrame(t, f.current.step, OfU32(frame.canId), word, expected);
      Perform(frame, verdict, expected, word);
    }

    /** Extend first, then abort, then advance. */
    static method JudgeFrame(t: Template, step: TxnStep, id: W32, word: W64, expected: W64) returns (verdict: Verdict)
      requires t.advance.Some? ==> expected == ExpectedValue(step, t.advance.value)
      ensures verdict == Judge(t, step, id, word)
    {
      if MatchesPattern(t.extend, id, word) {
        return Extends;
      }
      if MatchesPattern(t.abort, id, word) {
        return Aborts;
      }
      if t.advance.None? || !MatchesId(t.advance.value, id) {
        return Ignored;
      }
      if MatchesPayload(word, t.advance.value.payloadMask, expected) {
        return Advances;
      }
      return if t.mismatchAbort then Mismatch else Ignored;
    }

    method Perform(frame: Frame, verdict: Verdict, expected: W64, word: W64)
      requires Valid() && Running(State()) && IsWaiting(State())
      modifies this, queue, queue.ring
      ensures Valid() && State() == Act(old(State()), frame, verdict, expected, word).next
      ensures log == old(log) + Act(old(State()), frame, verdict, expected, word).outputs
    {
      ghost var before := State();
      if verdict == Aborts || verdict == Mismatch {
        ActAborts(before, frame, verdict, expected, word);
        AbortOnFrame(AbortReason(verdict), frame, ShownOnAbort(verdict, expected), word);
      } else {
        ActGoesOn(before, frame, verdict, expected, word);
        GoOn(frame, verdict);
      }
    }

    method GoOn(frame: Frame, verdict: Verdict)
      requires Running(State()) && IsWaiting(State())
      modifies `f
      ensures State() == GoesOn(old(State()), frame, verdict)
    {
      if verdict == Advances {
        RecordAnswer(frame);
      } else if verdict == Extends {
        f := f.(current := f.current.(rx := Some(RxOf(frame)), extendRequested := true));
      }
    }

    /** Frames the link sent are transmissions of the runner, and the last of them is its last frame. */
    method TrackFrames(frames: seq<Frame>, now: nat)
      modifies `f, `log
      ensures f == old(f).(lastFrameUs := if frames != [] then now else old(f.lastFrameUs))
      ensures log == old(log) + Emitted(State(), frames)
    {
      var index := f.session.interfaceIndex;
      log := log + seq(|frames|, i requires 0 <= i < |frames| => Transmitted(index, frames[i]));
      if frames != [] {
        f := f.(lastFrameUs := now);
      }
    }

    /** The frame goes to the link; what the link sends is tracked. */
    method GiveToLink(frame: Frame) returns (event: I.Event, ghost o: I.Out, ghost ok: bool)
      requires Valid() && I.LinkOk(link.state)
      modifies this, link, link.machine, link.machine.message, link.bus
      ensures Valid() && o == I.OnFrame(old(link.state), frame, old(f.lastTickUs), ok) && event == o.event
      ensures State() == WithLink(old(State()), o, old(f.lastTickUs)) && log == old(log) + Emitted(old(State()), o.frames)
    {
      var frames;
      event, frames, ok := link.OnFrame(frame, f.lastTickUs);
      o := I.Out(link.state, event, frames);
      TrackFrames(frames, f.lastTickUs);
    }

    method FeedIsotp(frame: Frame) returns (ghost o: I.Out, ghost ok: bool)
      requires Valid() && Running(State())
      modifies this, queue, queue.ring, link, link.machine, link.machine.message, link.bus
      ensures Valid() && o == I.OnFrame(old(link.state), frame, old(f.lastTickUs), ok)
      ensures State() == FedOutcome(old(State()), o).next && log == old(log) + FedOutcome(old(State()), o).outputs
    {
      var event;
      event, o, ok := GiveToLink(frame);
      Fed(event, old(State()), o);
      Told(old(log), Emitted(old(State()), o.frames), FedFollows(old(State()), o).outputs);
    }

    method Fed(event: I.Event, ghost before: Runner, ghost o: I.Out)
      requires Valid() && Running(before) && I.LinkOk(o.link) && o.event == event
      requires State() == WithLink(before, o, before.lastTickUs)
      modifies this, queue, queue.ring
      ensures Valid() && State() == FedFollows(before, o).next
      ensures log == old(log) + FedFollows(before, o).outputs
    {
      if event == I.Failed {
        var reason := link.FailureReason();
        AbortWith(LinkFailed(reason), f.completed);
        return;
      }
      if event != I.Message || !(f.current.phase == Wait && !f.current.satisfied) {
        return;
      }
      var frame := link.MessageFrame();
      MatchFrame(frame);
    }

    method DispatchFrame(frame: Frame) returns (ghost ok: bool)
      requires Valid() && Running(State())
      modifies this, queue, queue.ring, link, link.machine, link.machine.message, link.bus
      ensures Valid() && State() == Spec.DispatchFrame(old(State()), frame, ok).next
      ensures log == old(log) + Spec.DispatchFrame(old(State()), frame, ok).outputs
    {
      ok := false;
      if f.current.phase != Idle && TemplateFor(f.defs, f.current.step.templateId).kind == TYPE_ISOTP {
        ghost var o: I.Out;
        o, ok := FeedIsotp(frame);
        return;
      }
      if f.current.phase == Wait && !f.current.satisfied {
        MatchFrame(frame);
      }
    }

    /** One turn of the replay. */
    method ReplayFrame(frame: Frame) returns (ghost r: Result, ghost ok: bool)
      requires Valid() && Running(State())
      modifies this, queue, queue.ring, link, link.machine, link.machine.message, link.bus
      ensures Valid() && RunnerOk(State()) && r == Replayer()(old(State()), Some((frame, ok)))
      ensures State() == r.next && log == old(log) + r.outputs && r.again == f.active
    {
      ok := DispatchFrame(frame);
      r := Replayer()(old(State()), Some((frame, ok)));
    }

    /** Where a replay of `frames` from `start` stands; `told` is the log it began with. */
    ghost predicate Replaying(
      start: Runner, frames: seq<Frame>, told: seq<Output>, answers: seq<(Frame, bool)>, done: Result)
      reads this, queue, link
    {
      && |answers| <= |frames| && (forall k | 0 <= k < |answers| :: answers[k].0 == frames[k])
      && done.next == State() && done.again == f.active && log == told + done.outputs
      && PassedSoFar(Replayer(), start, |frames|, |answers|, answers, done)
    }

    /** One turn of the replay. */
    method ReplayNext(
      frames: seq<Frame>, i: nat, ghost start: Runner, ghost told: seq<Output>, ghost answers: seq<(Frame, bool)>, ghost done: Result)
      returns (ghost more: seq<(Frame, bool)>, ghost next: Result)
      requires Valid() && Running(State()) && i == |answers| < |frames| && Replaying(start, frames, told, answers, done)
      modifies this, queue, queue.ring, link, link.machine, link.machine.message, link.bus
      ensures Valid() && RunnerOk(State()) && |more| == i + 1 && Replaying(start, frames, told, more, next)
    {
      ghost var first, ok;
      first, ok := ReplayFrame(frames[i]);
      more, next := NextReplay(Replayer(), start, frames, answers, done, ok, first);
      Told(told, done.outputs, first.outputs);
    }

    method ReplayAll(frames: seq<Frame>) returns (ghost answers: seq<(Frame, bool)>, ghost done: Result)
      requires Valid() && Running(State())
      modifies this, queue, queue.ring, link, link.machine, link.machine.message, link.bus
      ensures Valid() && Replaying(old(State()), frames, old(log), answers, done)
      ensures |answers| == |frames| || !done.again
    {
      done, answers := Result(State(), [], true), [];
      PassStart<(Frame, bool)>(Replayer(), State(), |frames|);
      var i := 0;
      while i < |frames| && f.active
        invariant 0 <= i == |answers| <= |frames| && Valid() && RunnerOk(State())
        invariant Replaying(old(State()), frames, old(log), answers, done)
      {
        answers, done := ReplayNext(frames, i, old(State()), old(log), answers, done);
        i := i + 1;
      }
    }

    static ghost function Oks(answers: seq<(Frame, bool)>): seq<bool> {
      seq(|answers|, i requires 0 <= i < |answers| => answers[i].1)
    }

    static lemma AnswersGiven(frames: seq<Frame>, answers: seq<(Frame, bool)>) returns (rest: seq<(Frame, bool)>)
      requires |answers| <= |frames| && forall k | 0 <= k < |answers| :: answers[k].0 == frames[k]
      ensures WithAnswers(frames, Oks(answers)) == answers + rest
    {
      rest := WithAnswers(frames, Oks(answers))[|answers|..];
    }

    method ReplayEarlyFrames() returns (ghost oks: seq<bool>)
      requires Valid() && Running(State())
      modifies this, queue, queue.ring, link, link.machine, link.machine.message, link.bus
      ensures Valid()
      ensures var r := Repeat(Replayer(), old(State()).(early := []), |old(f.early)|, WithAnswers(old(f.early), oks));
        State() == r.next && log == old(log) + r.outputs
    {
      var frames := f.early;
      f := f.(early := []);
      ghost var start := State();
      ghost var answers, done;
      answers, done := ReplayAll(frames);
      ghost var rest := AnswersGiven(frames, answers);
      PassEnd(Replayer(), start, |frames|, |answers|, answers, rest, done);
      oks := Oks(answers);
    }

    method OnFrame(interfaceIndex: u8, frame: Frame) returns (ghost ok: bool)
      requires Valid() && RunnerOk(State())
      modifies this, queue, queue.ring, link, link.machine, link.machine.message, link.bus
      ensures Valid() && State() == Spec.OnFrame(old(State()), interfaceIndex, frame, ok).next
      ensures log == old(log) + Spec.OnFrame(old(State()), interfaceIndex, frame, ok).outputs
    {
      ok := false;
      if !f.active || interfaceIndex != f.session.interfaceIndex || frame.echo {
        return;
      }
      if f.current.phase == Idle || (f.current.phase == Wait && f.current.satisfied) {
        if |f.early| < EARLY_FRAMES_MAX {
          f := f.(early := f.early + [frame]);
        }
        return;
      }
      ok := DispatchFrame(frame);
    }

    // ---------- one pass ----------

    method TransmitTracked(frame: Frame, now: nat) returns (ok: bool)
      modifies `f, `log, link.bus
      ensures f == if ok then old(f).(lastFrameUs := now) else old(f)
      ensures log == old(log) + if ok then [Transmitted(f.session.interfaceIndex, frame)] else []
    {
      ok := link.Transmit(frame);
      if ok {
        f := f.(lastFrameUs := now);
        log := log + [Transmitted(f.session.interfaceIndex, frame)];
      }
    }

    method SendKeepaliveIfDue(now: nat) returns (ghost ok: bool)
      requires Running(State())
      modifies `f, `log, link.bus
      ensures State() == Spec.SendKeepaliveIfDue(old(State()), now, ok).next
      ensures log == old(log) + Spec.SendKeepaliveIfDue(old(State()), now, ok).outputs
    {
      ok := false;
      var k := f.session.keepalive;
      if k.periodMs == 0 || now < f.lastFrameUs + k.periodMs * 1000 {
        return;
      }
      var sent := TransmitTracked(Frame(k.canId, f.session.channel, k.frameFlags, false, k.payload), now);
      ok := sent;
      if sent {
        f := f.(early := []);
      }
    }

    method WaitForSteps(now: nat) returns (ghost ok: bool)
      requires Valid() && Running(State())
      modifies this, queue, queue.ring, link.bus
      ensures Valid() && State() == Spec.WaitForSteps(old(State()), now, ok).next
      ensures log == old(log) + Spec.WaitForSteps(old(State()), now, ok).outputs
    {
      ok := false;
      if f.starveDeadlineUs == 0 {
        f := f.(starveDeadlineUs := now + f.session.idleTimeoutUs);
      }
      if now >= f.starveDeadlineUs {
        AbortWith(Starved, f.completed);
        return;
      }
      ok := SendKeepaliveIfDue(now);
    }

    method OpenLink()
      requires Valid() && Running(State()) && IsLoaded(State())
      modifies link, link.machine
      ensures Valid() && State() == Opened(old(State()))
    {
      FrontAccepted(State());
      var t := TemplateFor(f.defs, f.current.step.templateId);
      if t.kind == TYPE_ISOTP {
        link.OpenFor(f.current.step.canId, f.session.channel, t.isotp);
      }
    }

    method StartStep(now: nat) returns (again: bool, ghost a: Answers)
      requires Valid() && Running(State()) && IsLoaded(State()) && !f.current.step.isContinued
      modifies this, queue, queue.ring, link, link.machine, link.machine.message, link.bus
      ensures Valid()
      ensures var r := Spec.StartStep(old(State()), now, a);
        State() == r.next && log == old(log) + r.outputs && again == r.again
    {
      a := NO_ANSWERS;
      FrontAccepted(State());
      OpenLink();
      if f.current.step.expectOnly {
        ghost var oks;
        oks := WaitAndReplay(now);
        a := Answers(false, oks);
        again := f.active;
        return;
      }
      f := f.(current := f.current.(phase := Transmit), early := []);
      again := true;
    }

    method WaitAndReplay(now: nat) returns (ghost oks: seq<bool>)
      requires Valid() && Running(State()) && CanWait(State())
      modifies this, queue, queue.ring, link, link.machine, link.machine.message, link.bus
      ensures Valid()
      ensures var r := ReplayFrames(Spec.StartWait(old(State()), now).(early := []), old(f.early), oks);
        State() == r.next && log == old(log) + r.outputs
    {
      StartWait(now);
      oks := ReplayEarlyFrames();
    }

    method GatherMessage(now: nat) returns (again: bool, ghost a: Answers)
      requires Valid() && Running(State()) && IsLoaded(State())
      modifies this, queue, queue.ring, link, link.machine, link.machine.message, link.bus
      ensures Valid()
      ensures var r := Spec.GatherMessage(old(State()), now, a);
        State() == r.next && log == old(log) + r.outputs && again == r.again
    {
      a := NO_ANSWERS;
      var payload := f.current.step.payload;
      if |f.message| + |payload| > I.MESSAGE_SIZE_MAX {
        AbortWith(InvalidStep, f.completed);
        return false, a;
      }
      f := f.(message := f.message + payload);
      if f.current.step.isContinued {
        ReleaseRecord();
        return true, a;
      }
      again, a := StartStep(now);
    }

    method NoStepLeft(now: nat) returns (ghost a: Answers)
      requires Valid() && Running(State()) && f.current.phase == Idle && queue.steps == []
      modifies this, queue, queue.ring, link.bus
      ensures Valid()
      ensures var r := Spec.LoadNextStep(old(State()), now, a);
        State() == r.next && log == old(log) + r.outputs && !r.again
    {
      a := NO_ANSWERS;
      if f.stepsEnded {
        FinishDone();
        return;
      }
      ghost var ok;
      ok := WaitForSteps(now);
      a := Answers(ok, []);
    }

    method LoadNextStep(now: nat) returns (again: bool, ghost a: Answers)
      requires Valid() && Running(State()) && f.current.phase == Idle
      modifies this, queue, queue.ring, link, link.machine, link.machine.message, link.bus
      ensures Valid()
      ensures var r := Spec.LoadNextStep(old(State()), now, a);
        State() == r.next && log == old(log) + r.outputs && again == r.again
    {
      a := NO_ANSWERS;
      var available := queue.Peek();
      if available == [] {
        a := NoStepLeft(now);
        return false, a;
      }
      FrontAccepted(State());
      var record := Decode(available).value;
      f := f.(current := NOTHING.(step := record.item, recordSize := record.size), starveDeadlineUs := 0);
      if record.item.isMessage {
        again, a := GatherMessage(now);
      } else {
        again, a := StartStep(now);
      }
    }

    /** The link ticks; what it sends is tracked. */
    method TickLink(now: nat) returns (event: I.Event, ghost o: I.Out, ghost a: Answers)
      requires Valid() && I.LinkOk(link.state)
      modifies this, link, link.machine, link.bus
      ensures Valid() && o == I.Tick(old(link.state), now, a.ok, a.oks) && event == o.event
      ensures State() == WithLink(old(State()), o, now) && log == old(log) + Emitted(old(State()), o.frames)
    {
      var frames;
      ghost var ok, oks;
      event, frames, ok, oks := link.Tick(now);
      a := Answers(ok, oks);
      o := I.Out(link.state, event, frames);
      TrackFrames(frames, now);
    }

    method StartMessage(now: nat)
      requires Valid() && Running(State()) && f.current.phase == Transmit
      modifies this, link, link.machine
      ensures Valid() && State() == StartedMessage(old(State()), now) && log == old(log)
    {
      if !f.current.messageStarted {
        link.Send(f.message, now);
        f := f.(current := f.current.(messageStarted := true));
      }
    }

    method MessageTicked(event: I.Event, now: nat, ghost before: Runner, ghost o: I.Out) returns (again: bool)
      requires Valid() && Running(before) && before.current.phase == Transmit && I.LinkOk(o.link) && o.event == event
      requires State() == WithLink(before, o, now)
      modifies this, queue, queue.ring
      ensures Valid()
      ensures var r := MessageFollows(before, o, now);
        State() == r.next && log == old(log) + r.outputs && again == r.again
    {
      if event == I.Failed {
        var reason := link.FailureReason();
        AbortWith(LinkFailed(reason), f.completed);
        return false;
      }
      if event != I.Sent {
        return false;
      }
      FinishTransmit(now);
      return true;
    }

    method TransmitMessage(now: nat) returns (again: bool, ghost a: Answers)
      requires Valid() && Running(State()) && f.current.phase == Transmit
      modifies this, queue, queue.ring, link, link.machine, link.bus
      ensures Valid()
      ensures var started := StartedMessage(old(State()), now);
        var r := MessageOutcome(started, I.Tick(started.link, now, a.ok, a.oks), now);
        State() == r.next && log == old(log) + r.outputs && again == r.again
    {
      StartMessage(now);
      ghost var started := State();
      var event;
      ghost var o;
      event, o, a := TickLink(now);
      again := MessageTicked(event, now, started, o);
      Told(old(log), Emitted(started, o.frames), MessageFollows(started, o, now).outputs);
    }

    method StartDeadline(now: nat)
      requires Running(State()) && f.current.phase == Transmit
      modifies `f
      ensures State() == Timed(old(State()), now)
    {
      if f.current.deadlineUs == 0 {
        var t := TemplateFor(f.defs, f.current.step.templateId);
        f := f.(current := f.current.(deadlineUs := now + TransmitTimeoutUs(t)));
      }
    }

    method RetryFrame(now: nat)
      requires Valid() && Running(State()) && f.current.phase == Transmit
      modifies this, queue, queue.ring
      ensures Valid() && State() == FrameRefused(old(State()), now).next
      ensures log == old(log) + FrameRefused(old(State()), now).outputs
    {
      if now >= f.current.deadlineUs {
        AbortWith(TxFailed, f.completed);
        return;
      }
      f := f.(current := f.current.(retryAtUs := now + TX_RETRY_US));
    }

    method TransmitFrame(now: nat) returns (again: bool, ghost ok: bool)
      requires Valid() && Running(State()) && f.current.phase == Transmit && !IsIsotpStep(State())
      modifies this, queue, queue.ring, link.bus
      ensures Valid()
      ensures var r := Spec.TransmitFrame(old(State()), now, ok);
        State() == r.next && log == old(log) + r.outputs && again == r.again
    {
      FrontAccepted(State());
      StartDeadline(now);
      ghost var timed := State();
      var step := f.current.step;
      var frame := Frame(step.canId, f.session.channel, step.frameFlags, false, step.payload);
      again := TransmitTracked(frame, now);
      ok := again;
      if !again {
        RetryFrame(now);
        return;
      }
      ghost var sent := State();
      FinishTransmit(now);
      assert Emitted(timed, [frame]) == [Transmitted(f.session.interfaceIndex, frame)];
      Told(old(log), Emitted(timed, [frame]), Spec.FinishTransmit(sent, now).outputs);
    }

    method TransmitStep(now: nat) returns (again: bool, ghost a: Answers)
      requires Valid() && Running(State()) && f.current.phase == Transmit
      modifies this, queue, queue.ring, link, link.machine, link.bus
      ensures Valid()
      ensures var r := Spec.TransmitStep(old(State()), now, a);
        State() == r.next && log == old(log) + r.outputs && again == r.again
    {
      a := NO_ANSWERS;
      if now < f.nextTransmitUs || now < f.current.retryAtUs {
        return false, a;
      }
      if TemplateFor(f.defs, f.current.step.templateId).kind == TYPE_ISOTP {
        again, a := TransmitMessage(now);
        return;
      }
      ghost var ok;
      again, ok := TransmitFrame(now);
      a := Answers(ok, []);
    }

    method Settle(now: nat) returns (again: bool)
      requires Valid() && Running(State()) && f.current.phase == Wait
      modifies this, queue, queue.ring
      ensures Valid()
      ensures var r := Spec.Settle(old(State()), now);
        State() == r.next && log == old(log) + r.outputs && again == r.again
    {
      var t := TemplateFor(f.defs, f.current.step.templateId);
      if f.current.satisfied {
        CompleteStep();
        return true;
      }
      if f.current.extendRequested {
        f := f.(current := f.current.(extendRequested := false, deadlineUs := now + ExtendTimeoutUs(t)));
      }
      if now < f.current.deadlineUs {
        return false;
      }
      if t.soft {
        CompleteStep();
        return true;
      }
      AbortWith(Timeout, f.completed);
      return false;
    }

    method WaitTicked(event: I.Event, now: nat, ghost before: Runner, ghost o: I.Out) returns (again: bool)
      requires Valid() && Running(before) && before.current.phase == Wait && I.LinkOk(o.link) && o.event == event
      requires State() == WithLink(before, o, now)
      modifies this, queue, queue.ring
      ensures Valid()
      ensures var r := WaitFollows(before, o, now);
        State() == r.next && log == old(log) + r.outputs && again == r.again
    {
      if event == I.Failed {
        var reason := link.FailureReason();
        AbortWith(LinkFailed(reason), f.completed);
        return false;
      }
      again := Settle(now);
    }

    method SettleWait(now: nat) returns (again: bool, ghost a: Answers)
      requires Valid() && Running(State()) && f.current.phase == Wait
      modifies this, queue, queue.ring, link, link.machine, link.bus
      ensures Valid()
      ensures var r := Spec.SettleWait(old(State()), now, a);
        State() == r.next && log == old(log) + r.outputs && again == r.again
    {
      a := NO_ANSWERS;
      if TemplateFor(f.defs, f.current.step.templateId).kind != TYPE_ISOTP {
        again := Settle(now);
        return;
      }
      var event;
      ghost var before := State();
      ghost var o;
      event, o, a := TickLink(now);
      again := WaitTicked(event, now, before, o);
      Told(old(log), Emitted(before, o.frames), WaitFollows(before, o, now).outputs);
    }

    method RunOnce(now: nat) returns (again: bool, ghost a: Answers)
      requires Valid() && Running(State())
      modifies this, queue, queue.ring, link, link.machine, link.machine.message, link.bus
      ensures Valid()
      ensures var r := Spec.RunOnce(old(State()), now, a);
        State() == r.next && log == old(log) + r.outputs && again == r.again
    {
      match f.current.phase
      case Idle => again, a := LoadNextStep(now);
      case Transmit => again, a := TransmitStep(now);
      case Wait => again, a := SettleWait(now);
    }

    // ---------- ticks ----------

    method ReportProgress()
      modifies `f, `log
      ensures State() == Spec.ReportProgress(old(State())).next
      ensures log == old(log) + Spec.ReportProgress(old(State())).outputs
    {
      f := f.(reported := f.consumed, reportDueUs := 0);
      log := log + [Progress(f.session.channel, f.session.txnId, f.completed, f.consumed)];
    }

    method FlushProgress(now: nat)
      modifies `f, `log
      ensures State() == Flushed(old(State()), now).next
      ensures log == old(log) + Flushed(old(State()), now).outputs
    {
      var pending := (f.consumed - f.reported) % WORD;
      if pending == 0 {
        return;
      }
      if pending >= window / PROGRESS_THRESHOLD_DIVISOR {
        ReportProgress();
        return;
      }
      if f.reportDueUs == 0 {
        f := f.(reportDueUs := now + PROGRESS_FLUSH_US);
        return;
      }
      if now >= f.reportDueUs {
        ReportProgress();
      }
    }

    /** Where the passes of a tick from `start` stand; `told` is the log they began with. */
    ghost predicate Ticking(start: Runner, now: nat, told: seq<Output>, answers: seq<Answers>, done: Result)
      reads this, queue, link
    {
      && |answers| <= StepsPerTick()
      && done.next == State() && log == told + done.outputs && (done.again ==> f.active)
      && PassedSoFar(Pass(now), start, StepsPerTick(), |answers|, answers, done)
    }

    /** One turn of the tick loop. */
    method PassNext(now: nat, ghost start: Runner, ghost told: seq<Output>, ghost answers: seq<Answers>, ghost done: Result)
      returns (again: bool, ghost more: seq<Answers>, ghost next: Result)
      requires Valid() && Running(State()) && |answers| < StepsPerTick() && done.again
      requires Ticking(start, now, told, answers, done)
      modifies this, queue, queue.ring, link, link.machine, link.machine.message, link.bus
      ensures Valid() && RunnerOk(State()) && |more| == |answers| + 1 && Ticking(start, now, told, more, next)
      ensures next.again <==> again && f.active
    {
      ghost var first, a;
      again, first, a := OnePass(now);
      PassStep(Pass(now), start, StepsPerTick(), |answers|, answers, done, a, first);
      more, next := answers + [a], After(done.outputs, first.(again := first.next.active && first.again));
      Told(told, done.outputs, first.outputs);
    }

    method OnePass(now: nat) returns (again: bool, ghost r: Result, ghost a: Answers)
      requires Valid() && Running(State())
      modifies this, queue, queue.ring, link, link.machine, link.machine.message, link.bus
      ensures Valid() && RunnerOk(State()) && r == Pass(now)(old(State()), Some(a))
      ensures State() == r.next && log == old(log) + r.outputs && again == r.again
    {
      again, a := RunOnce(now);
      r := Spec.RunOnce(old(State()), now, a);
    }

    method RunPasses(now: nat) returns (ghost answers: seq<Answers>, ghost done: Result)
      requires Valid() && Running(State())
      modifies this, queue, queue.ring, link, link.machine, link.machine.message, link.bus
      ensures Valid() && RunnerOk(State()) && Ticking(old(State()), now, old(log), answers, done)
      ensures |answers| == StepsPerTick() || !done.again
    {
      done, answers := Result(State(), [], true), [];
      PassStart<Answers>(Pass(now), State(), StepsPerTick());
      var i, again := 0, true;
      while i < StepsPerTick() && f.active && again
        invariant 0 <= i == |answers| <= StepsPerTick() && Valid() && RunnerOk(State())
        invariant Ticking(old(State()), now, old(log), answers, done) && (done.again <==> again && f.active)
      {
        again, answers, done := PassNext(now, old(State()), old(log), answers, done);
        i := i + 1;
      }
    }

    method FlushIfActive(now: nat) returns (ghost flushed: Result)
      requires Valid()
      modifies `f, `log
      ensures Valid() && State() == flushed.next && log == old(log) + flushed.outputs
      ensures flushed == if old(f.active) then Flushed(old(State()), now) else Result(old(State()), [], false)
    {
      flushed := if f.active then Flushed(State(), now) else Result(State(), [], false);
      if f.active {
        FlushProgress(now);
      }
    }

    method TickActive(now: nat) returns (ghost answers: seq<Answers>)
      requires Valid() && Running(State()) && f.lastTickUs == now
      modifies this, queue, queue.ring, link, link.machine, link.machine.message, link.bus
      ensures Valid()
      ensures var run := Repeat(Pass(now), old(State()), StepsPerTick(), answers);
        var flushed := if run.next.active then Flushed(run.next, now) else Result(run.next, [], false);
        State() == flushed.next && log == old(log) + (run.outputs + flushed.outputs)
    {
      ghost var start := State();
      ghost var done;
      answers, done := RunPasses(now);
      PassEnd(Pass(now), start, StepsPerTick(), |answers|, answers, [], done);
      assert answers + [] == answers;
      ghost var flushed := FlushIfActive(now);
      Told(old(log), done.outputs, flushed.outputs);
    }

    method Tick(now: nat) returns (ghost answers: seq<Answers>)
      requires Valid() && RunnerOk(State())
      modifies this, queue, queue.ring, link, link.machine, link.machine.message, link.bus
      ensures Valid() && State() == Spec.Tick(old(State()), now, answers).next
      ensures log == old(log) + Spec.Tick(old(State()), now, answers).outputs
    {
      answers := [];
      if !f.active {
        return;
      }
      f := f.(lastTickUs := now);
      answers := TickActive(now);
    }

    method NextWake() returns (wake: nat)
      requires Valid()
      ensures wake == NextWakeUs(State())
    {
      if !f.active {
        return 0;
      }
      wake := I.Earliest(0, f.reportDueUs);
      if f.current.phase == Idle {
        var empty := queue.IsEmpty();
        if !empty || f.stepsEnded {
          return f.lastTickUs;
        }
        if f.session.keepalive.periodMs != 0 {
          wake := I.Earliest(wake, f.lastFrameUs + f.session.keepalive.periodMs * 1000);
        }
        return I.Earliest(wake, f.starveDeadlineUs);
      }
      var linkWake := link.NextWake();
      if f.current.phase == Transmit && f.current.messageStarted {
        return I.Earliest(wake, linkWake);
      }
      if f.current.phase == Transmit {
        var ready := f.nextTransmitUs;
        if f.current.retryAtUs > ready {
          ready := f.current.retryAtUs;
        }
        return I.Earliest(wake, if ready < f.lastTickUs then f.lastTickUs else ready);
      }
      wake := I.Earliest(wake, f.current.deadlineUs);
      if TemplateFor(f.defs, f.current.step.templateId).kind == TYPE_ISOTP {
        wake := I.Earliest(wake, linkWake);
      }
    }

    // ---------- messages from the client ----------

    method Begin(channel: u8, idleTimeoutMs: u32, k: Keepalive, interfaceIndex: u8, now: nat) returns (ack: Ack)
      requires Valid() && RunnerOk(State())
      modifies this, queue, queue.ring
      ensures Valid() && State() == Spec.Begin(old(State()), channel, idleTimeoutMs, k, interfaceIndex, now)
      ensures ack == BeginAck(old(State()), channel, k) && log == old(log)
    {
      if f.active {
        return Ack(channel, Busy, 0, 0);
      }
      if !IsBeginValid(k) {
        return Ack(channel, Invalid, 0, 0);
      }
      var id := if f.session.txnId == 0xFFFF then 1 else f.session.txnId + 1;
      var idle := if idleTimeoutMs == 0 then STARVATION_TIMEOUT_US else idleTimeoutMs * 1000;
      f := Fields(true, Session(id, channel, interfaceIndex, idle, k), NO_DEFINITIONS,
                  0, false, 0, 0, 0, 0, 0, now + idle, 0, now, now, NOTHING, [], []);
      queue.Clear();
      return Ack(channel, BeginOk, id, window);
    }

    method DefineRoster(txnId: u16, roster: Roster)
      requires Valid() && RunnerOk(State())
      modifies this, queue, queue.ring
      ensures Valid() && State() == DefineRosterCall(old(State()), txnId, roster).next
      ensures log == old(log) + DefineRosterCall(old(State()), txnId, roster).outputs
    {
      if !f.active || txnId != f.session.txnId {
        return;
      }
      if f.defs.roster.Some? || !IsRosterValid(roster) {
        AbortWith(InvalidStep, f.nextSeq);
        return;
      }
      f := f.(defs := f.defs.(roster := Some(roster)));
    }

    method DefineTemplate(txnId: u16, t: Template)
      requires Valid() && RunnerOk(State())
      modifies this, queue, queue.ring
      ensures Valid() && State() == DefineTemplateCall(old(State()), txnId, t).next
      ensures log == old(log) + DefineTemplateCall(old(State()), txnId, t).outputs
    {
      if !f.active || txnId != f.session.txnId {
        return;
      }
      if !IsTemplateValid(f.defs, t) {
        AbortWith(InvalidStep, f.nextSeq);
        return;
      }
      f := f.(defs := f.defs.(templates := f.defs.templates[t.id := t]));
    }

    method Abort(txnId: u16)
      requires Valid() && RunnerOk(State())
      modifies this, queue, queue.ring
      ensures Valid() && State() == Spec.Abort(old(State()), txnId).next
      ensures log == old(log) + Spec.Abort(old(State()), txnId).outputs
    {
      if !f.active || txnId != f.session.txnId {
        return;
      }
      AbortWith(Cancelled, f.completed);
    }

    method Cancel()
      requires Valid() && RunnerOk(State())
      modifies this, queue, queue.ring
      ensures Valid() && State() == Spec.Cancel(old(State())) && log == old(log)
    {
      f := f.(active := false);
      queue.Clear();
    }

    ghost function LedgerNow(): Ledger
      reads this, queue, link
    {
      State().ledger
    }

    /** One record of a batch; the ring always takes what the window lets through. */
    method PushRecord(available: seq<u8>, number: u32) returns (taken: Option<Taken<TxnStep>>)
      requires Valid() && BaseOk(State()) && f.active && LedgerOk(window, f.defs, LedgerNow().(nextSeq := number))
      modifies this, queue, queue.ring, queue.ring.storage
      ensures Valid()
      ensures match TakeRecord(window, old(f.defs))(old(LedgerNow()), available)
        case Took(step, size) =>
          && taken == Some(Taken(step, size)) && size <= |available| && AcceptsRecord(f.defs, step)
          && size == RecordSize(step) && HasRoom(window, old(LedgerNow()), size)
          && State() == old(State()).(ledger := Queue(old(LedgerNow()), step)) && log == old(log)
        case Declined(reason) =>
          && taken.None? && State() == Spec.AbortWith(old(State()), reason, number).next
          && log == old(log) + Spec.AbortWith(old(State()), reason, number).outputs
    {
      var record := Decode(available);
      if record.None? || !AcceptsRecord(f.defs, record.value.item) {
        AbortWith(InvalidStep, number);
        return None;
      }
      var size := record.value.size;
      var inFlight := (f.pushed - f.consumed) % WORD;
      if inFlight + size > window {
        AbortWith(Overrun, number);
        return None;
      }
      var ok := QueueRecord(available, size, number);
      return record;
    }

    method QueueRecord(available: seq<u8>, size: nat, ghost number: u32) returns (ok: bool)
      requires Valid() && LedgerOk(window, f.defs, LedgerNow().(nextSeq := number)) && HasRoom(window, LedgerNow(), size)
      requires Decode(available).Some? && Decode(available).value.size == size
      modifies `f, queue, queue.ring, queue.ring.storage
      ensures ok && Valid() && State() == old(State()).(ledger := Queue(old(LedgerNow()), Decode(available).value.item))
    {
      DecodesAlone(available);
      RoomIsReal(window, f.defs, LedgerNow().(nextSeq := number), size);
      ok := queue.Push(available[..size]);
      f := f.(pushed := (f.pushed + size) % WORD);
    }

    /** Where the push of a batch stands: what is still to come decides what the whole comes to. */
    ghost predicate Pushing(start: Runner, number: u32)
      reads this, queue, link
    {
      && BaseOk(State()) && f.active && State() == start.(ledger := LedgerNow())
      && LedgerOk(window, f.defs, LedgerNow().(nextSeq := number))
    }

    /** One turn of the push loop. */
    method PushNext(ghost start: Runner, available: seq<u8>, number: u32, ghost take: (Ledger, seq<u8>) -> Taking)
      returns (taken: Option<nat>, following: u32)
      requires Valid() && Pushing(start, number) && IsRule(queue.seal, take, window, start.defs)
      modifies this, queue, queue.ring, queue.ring.storage
      ensures Valid()
      ensures match take(old(LedgerNow()), available)
        case Took(step, size) =>
          && taken == Some(size) && size <= |available| && following == SeqAfter(number, step)
          && Pushing(start, following) && LedgerNow() == Queue(old(LedgerNow()), step) && log == old(log)
        case Declined(reason) =>
          && taken.None? && BaseOk(start)
          && State() == Spec.AbortWith(start.(ledger := old(LedgerNow())), reason, number).next
          && log == old(log) + Spec.AbortWith(start.(ledger := old(LedgerNow())), reason, number).outputs
    {
      RuleIs(queue.seal, take, window, start.defs);
      ghost var l := LedgerNow();
      var record := PushRecord(available, number);
      if record.None? {
        return None, number;
      }
      QueueNumbered(window, start.defs, l, record.value.item, number);
      return Some(record.value.size), SeqAfter(number, record.value.item);
    }

    method PushFrom(
      ghost start: Runner, ghost whole: Pushed, ghost take: (Ledger, seq<u8>) -> Taking,
      records: seq<u8>, offset: nat, ghost left: nat, number: u32)
      returns (ok: bool, next: nat, following: u32)
      requires Valid() && Pushing(start, number) && IsRule(queue.seal, take, window, start.defs)
      requires left > 0 && Remains(take, whole, LedgerNow(), records, offset, left, number)
      modifies this, queue, queue.ring, queue.ring.storage
      ensures Valid()
      ensures ok ==>
        Pushing(start, following) && Remains(take, whole, LedgerNow(), records, next, left - 1, following) && log == old(log)
      ensures !ok ==>
        && BaseOk(start) && whole.Refused?
        && State() == Spec.AbortWith(start.(ledger := whole.ledger), whole.reason, whole.number).next
        && log == old(log) + Spec.AbortWith(start.(ledger := whole.ledger), whole.reason, whole.number).outputs
    {
      PushTurn(take, whole, LedgerNow(), records, offset, left, number);
      var taken;
      taken, following := PushNext(start, records[offset..], number, take);
      if taken.None? {
        return false, offset, number;
      }
      return true, offset + taken.value, following;
    }

    /** The loop over the records of a batch; `whole` is what all of them come to. */
    method PushAll(
      ghost start: Runner, ghost whole: Pushed, ghost take: (Ledger, seq<u8>) -> Taking,
      records: seq<u8>, count: u8, firstSeq: u32)
      returns (ok: bool, number: u32)
      requires Valid() && Pushing(start, firstSeq) && IsRule(queue.seal, take, window, start.defs)
      requires Remains(take, whole, LedgerNow(), records, 0, count, firstSeq)
      modifies this, queue, queue.ring, queue.ring.storage
      ensures Valid()
      ensures ok ==> Pushing(start, number) && whole == Queued(LedgerNow(), number) && log == old(log)
      ensures !ok ==>
        && BaseOk(start) && whole.Refused?
        && State() == Spec.AbortWith(start.(ledger := whole.ledger), whole.reason, whole.number).next
        && log == old(log) + Spec.AbortWith(start.(ledger := whole.ledger), whole.reason, whole.number).outputs
    {
      var offset: nat, i := 0, 0;
      number, ok := firstSeq, true;
      while i < count
        invariant 0 <= i <= count && ok && Valid() && log == old(log)
        invariant Pushing(start, number) && Remains(take, whole, LedgerNow(), records, offset, count - i, number)
      {
        ok, offset, number := PushFrom(start, whole, take, records, offset, count - i, number);
        if !ok {
          return;
        }
        i := i + 1;
      }
      NoneRemain(take, whole, LedgerNow(), records, offset, number);
    }

    method PushRecords(firstSeq: u32, records: seq<u8>, count: u8, ghost take: (Ledger, seq<u8>) -> Taking)
      returns (ok: bool, number: u32)
      requires Valid() && Running(State()) && firstSeq == f.nextSeq && IsRule(queue.seal, take, window, f.defs)
      modifies this, queue, queue.ring, queue.ring.storage
      ensures Valid()
      ensures var whole := PushWith(take, old(LedgerNow()), records, count, firstSeq);
        if ok then whole == Queued(LedgerNow(), number) && State() == old(State()).(ledger := LedgerNow()) && log == old(log)
        else
          && whole.Refused?
          && State() == Spec.AbortWith(old(State()).(ledger := whole.ledger), whole.reason, whole.number).next
          && log == old(log) + Spec.AbortWith(old(State()).(ledger := whole.ledger), whole.reason, whole.number).outputs
    {
      ghost var start := State();
      ghost var whole := PushWith(take, start.ledger, records, count, firstSeq);
      AllRemains(take, start.ledger, records, count, firstSeq);
      assert start.ledger.(nextSeq := firstSeq) == start.ledger;
      ok, number := PushAll(start, whole, take, records, count, firstSeq);
    }

    method PushSteps(txnId: u16, firstSeq: u32, end: bool, records: seq<u8>, count: u8)
      requires Valid() && RunnerOk(State())
      modifies this, queue, queue.ring, queue.ring.storage
      ensures Valid() && State() == Spec.PushSteps(old(State()), txnId, firstSeq, end, records, count).next
      ensures log == old(log) + Spec.PushSteps(old(State()), txnId, firstSeq, end, records, count).outputs
    {
      if !f.active || txnId != f.session.txnId {
        return;
      }
      if f.stepsEnded || firstSeq != f.nextSeq {
        AbortWith(InvalidStep, firstSeq);
        return;
      }
      RuleIs(queue.seal, TakeRecord(window, f.defs), window, f.defs);
      var ok, number := PushRecords(firstSeq, records, count, TakeRecord(window, f.defs));
      if ok {
        f := f.(nextSeq := number, stepsEnded := end);
      }
    }
  }

  /** `take` is the agent's rule for records, opaque in the same way: the push loop's proof does not depend on the rule. */
  ghost predicate IsRule(n: nat, take: (Ledger, seq<u8>) -> Taking, window: u32, d: Definitions) {
    if n == 0 then take == TakeRecord(window, d) else IsRule(n - 1, take, window, d)
  }

  lemma {:induction false} RuleIs(n: nat, take: (Ledger, seq<u8>) -> Taking, window: u32, d: Definitions)
    ensures IsRule(n, take, window, d) <==> take == TakeRecord(window, d)
  {
    if n > 0 {
      RuleIs(n - 1, take, window, d);
    }
  }

  /** What is still to come of a batch decides what the whole comes to. */
  ghost predicate Remains(
    take: (Ledger, seq<u8>) -> Taking, whole: Pushed, l: Ledger, records: seq<u8>, offset: nat, left: nat, number: u32)
  {
    offset <= |records| && whole == PushWith(take, l, records[offset..], left, number)
  }

  lemma AllRemains(take: (Ledger, seq<u8>) -> Taking, l: Ledger, records: seq<u8>, count: nat, number: u32)
    ensures Remains(take, PushWith(take, l, records, count, number), l, records, 0, count, number)
  {
    assert records[0..] == records;
  }

  lemma NoneRemain(
    take: (Ledger, seq<u8>) -> Taking, whole: Pushed, l: Ledger, records: seq<u8>, offset: nat, number: u32)
    requires Remains(take, whole, l, records, offset, 0, number)
    ensures whole == Queued(l, number)
  {
  }

  lemma PushTurn(
    take: (Ledger, seq<u8>) -> Taking, whole: Pushed, l: Ledger, records: seq<u8>, offset: nat, left: nat, number: u32)
    requires left > 0 && Remains(take, whole, l, records, offset, left, number)
    ensures match take(l, records[offset..])
      case Declined(reason) => whole == Refused(l, reason, number)
      case Took(step, size) =>
        offset + size <= |records| ==>
          Remains(take, whole, Queue(l, step), records, offset + size, left - 1, SeqAfter(number, step))
  {
    if take(l, records[offset..]).Took? {
      var size := take(l, records[offset..]).size;
      if offset + size <= |records| {
        assert records[offset..][size..] == records[offset + size..];
      }
    }
  }

  lemma QueueNumbered(window: u32, d: Definitions, l: Ledger, step: TxnStep, number: u32)
    requires LedgerOk(window, d, l.(nextSeq := number)) && AcceptsRecord(d, step) && HasRoom(window, l, RecordSize(step))
    ensures LedgerOk(window, d, Queue(l, step).(nextSeq := SeqAfter(number, step)))
  {
    QueueKeeps(window, d, l.(nextSeq := number), step);
    var next := SeqAfter(number, step);
    assert Queue(l, step).(nextSeq := next) == Queue(l.(nextSeq := number), step).(nextSeq := next);
  }
}
