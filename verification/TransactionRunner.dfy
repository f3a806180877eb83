/**
  The agent's transaction runner (src/agent/domain/transaction_runner.c), as
  functions on its state. Every function that may transmit takes the bus's
  answers and returns what the port was told, in order.
 */
module TransactionRunner {
  import opened Frames
  import opened MachineWords
  import opened StepCodec
  import opened AgentRules
  import I = IsotpLink

  const STARVATION_TIMEOUT_US := 5000000
  const TX_RETRY_US := 1000
  const DEFAULT_TX_TIMEOUT_MS := 1000
  const PROGRESS_FLUSH_US := 10000
  const EARLY_FRAMES_MAX := 16
  /** TRANSACTION_STEPS_PER_TICK_MAX; a function, so that no loop is unrolled over it. */
  function StepsPerTick(): nat { 64 }

  const PROGRESS_THRESHOLD_DIVISOR := 4
  const CAN_ID_BITS := 29

  datatype Reason =
    | NoReason | Timeout | AbortMatch | ValueMismatch | TxFailed | Cancelled
    | Starved | Overrun | InvalidStep | LinkFailed(link: I.Reason)

  datatype Phase = Idle | Transmit | Wait

  datatype RxFrame = RxFrame(canId: u32, frameFlags: u8, payload: Payload)

  /** The step being executed; `seen` is the bitmap of roster indices that answered. */
  datatype ActiveStep = ActiveStep(
    step: TxnStep, recordSize: nat, phase: Phase,
    satisfied: bool, extendRequested: bool, messageStarted: bool,
    deadlineUs: nat, retryAtUs: nat,
    matchCount: u8, seenCount: u8, seen: set<nat>, rx: Option<RxFrame>)

  const NO_STEP := TxnStep(0, false, false, false, false, 0, 0, 0, [])
  const NOTHING := ActiveStep(NO_STEP, 0, Idle, false, false, false, 0, 0, 0, 0, {}, None)

  datatype Keepalive = Keepalive(periodMs: u32, canId: u32, frameFlags: u8, payload: Payload)

  /** What Begin fixes for the whole transaction. */
  datatype Session = Session(
    txnId: u16, channel: u8, interfaceIndex: u8, idleTimeoutUs: nat, keepalive: Keepalive)

  /** The records in the ring, and the counters that follow them; 32-bit, wrapping. */
  datatype Ledger = Ledger(
    queue: seq<TxnStep>, nextSeq: u32, ended: bool, completed: u32, pushed: u32, consumed: u32)

  datatype Runner = Runner(
    window: u32, active: bool, session: Session, defs: Definitions, ledger: Ledger,
    reported: u32, reportDueUs: nat, starveDeadlineUs: nat, nextTransmitUs: nat,
    lastTickUs: nat, lastFrameUs: nat,
    current: ActiveStep, link: I.Link, message: seq<u8>, early: seq<Frame>)

  datatype Status = Status(
    channel: u8, txnId: u16, done: bool, reason: Reason, failingSeq: u32, completed: u32,
    seen: set<nat>, rosterStep: bool, rx: Option<RxFrame>, origin: W32, expected: W64, got: W64)

  datatype Output =
    | Transmitted(interfaceIndex: u8, frame: Frame)
    | Progress(channel: u8, txnId: u16, completed: u32, consumed: u32)
    | Missing(channel: u8, txnId: u16, number: u32, seen: set<nat>)
    | Finished(status: Status)

  /** What a call leaves behind; `again` tells the tick loop to go round once more. */
  datatype Result = Result(next: Runner, outputs: seq<Output>, again: bool)

  /** The bus's answers during one pass or one frame. */
  datatype Answers = Answers(ok: bool, oks: seq<bool>)

  function After(outputs: seq<Output>, r: Result): Result {
    r.(outputs := outputs + r.outputs)
  }

  // ---------- templates and origins ----------

  const NO_TEMPLATE := Template(
    0, MODE_NONE, false, false, 0, 0, 0, 0, TYPE_GENERIC, None, None, None,
    I.Params(0, false, false, false, false, 0, 0, 0, 0, 0, 0), false)

  function TemplateFor(d: Definitions, id: u8): Template {
    if id in d.templates then d.templates[id] else NO_TEMPLATE
  }

  function CurrentTemplate(s: Runner): Template {
    TemplateFor(s.defs, s.current.step.templateId)
  }

  function Nodes(d: Definitions): seq<W32> {
    if d.roster.Some? then d.roster.value.nodes else []
  }

  predicate OriginBit(payload: seq<u8>, offset: nat, i: nat) {
    PayloadBit(payload, 8 * offset + i)
  }

  /** Four payload bytes from `offset` on, little-endian; missing bytes read as zero. */
  function PayloadOrigin(payload: seq<u8>, offset: nat): W32 {
    set i: nat | i < 32 && OriginBit(payload, offset, i)
  }

  function ExtractOrigin(d: Definitions, f: Frame): W32 {
    if d.roster.None? then {}
    else
      var origin := d.roster.value.origin;
      var value := if origin.source == SOURCE_CAN_ID then OfU32(f.canId) * Ones(CAN_ID_BITS)
                   else PayloadOrigin(f.payload, origin.payloadOffset);
      Shr(value * origin.mask, origin.shift)
  }

  /** The first roster index from `from` on that lists the origin. */
  function FindFrom(nodes: seq<W32>, origin: W32, from: nat): (i: Option<nat>)
    requires from <= |nodes|
    ensures i.Some? ==>
      from <= i.value < |nodes| && nodes[i.value] == origin && forall j | from <= j < i.value :: nodes[j] != origin
    ensures i.None? ==> forall j | from <= j < |nodes| :: nodes[j] != origin
    decreases |nodes| - from
  {
    if from == |nodes| then None
    else if nodes[from] == origin then Some(from)
    else FindFrom(nodes, origin, from + 1)
  }

  function FindNode(nodes: seq<W32>, origin: W32): Option<nat> {
    FindFrom(nodes, origin, 0)
  }

  function Needed(d: Definitions, t: Template): nat {
    if t.mode == MODE_COUNT || t.mode == MODE_ROSTER_K then t.countK else RosterCount(d)
  }

  // ---------- what every call keeps ----------

  function Release(l: Ledger, size: nat): Ledger
    requires l.queue != []
  {
    l.(queue := l.queue[1..], consumed := (l.consumed + size) % WORD)
  }

  predicate DefinitionsOk(d: Definitions) {
    forall id | id in d.templates :: IsTemplateSound(d, d.templates[id])
  }

  function Bytes(queue: seq<TxnStep>): nat {
    if queue == [] then 0 else RecordSize(queue[0]) + Bytes(queue[1..])
  }

  /** Records that end a step: all but the continued ones. */
  function Counted(queue: seq<TxnStep>): nat {
    if queue == [] then 0 else (if queue[0].isContinued then 0 else 1) + Counted(queue[1..])
  }

  /** Pushed minus consumed bytes are those in the ring, next_seq is the completed steps plus those in the ring. */
  predicate LedgerOk(window: u32, d: Definitions, l: Ledger) {
    && Bytes(l.queue) <= window
    && l.pushed == (l.consumed + Bytes(l.queue)) % WORD
    && l.nextSeq == (l.completed + Counted(l.queue)) % WORD
    && forall q | q in l.queue :: AcceptsRecord(d, q)
  }

  /** Index i is the first to list its node. */
  predicate IsFirst(nodes: seq<W32>, i: nat) {
    i < |nodes| && forall j | 0 <= j < i :: nodes[j] != nodes[i]
  }

  /** Answers counted are answers seen, and the step is satisfied exactly at its quorum. */
  predicate AnswersOk(d: Definitions, t: Template, c: ActiveStep) {
    && (forall i | i in c.seen :: IsFirst(Nodes(d), i))
    && c.seenCount == |c.seen|
    && (c.phase == Wait ==>
        (c.satisfied <==> (if t.mode == MODE_COUNT then c.matchCount else c.seenCount) >= Needed(d, t)))
  }

  /** The step in execution is the front record, ready for its phase. */
  predicate CurrentOk(d: Definitions, l: Ledger, c: ActiveStep) {
    && AnswersOk(d, TemplateFor(d, c.step.templateId), c)
    && (c.phase != Idle ==>
        && l.queue != [] && l.queue[0] == c.step && c.recordSize == RecordSize(c.step) && !c.step.isContinued
        && (c.phase == Wait ==> IsWaitingMode(TemplateFor(d, c.step.templateId).mode))
        && (c.phase == Transmit ==> !c.step.expectOnly && c.seen == {} && c.matchCount == 0 && !c.satisfied))
  }

  predicate BaseOk(s: Runner) {
    && I.LinkOk(s.link)
    && DefinitionsOk(s.defs) && RosterCount(s.defs) <= ROSTER_MAX
    && |s.message| <= I.MESSAGE_SIZE_MAX && |s.early| <= EARLY_FRAMES_MAX
    && s.session.idleTimeoutUs > 0
  }

  predicate RunnerOk(s: Runner) {
    BaseOk(s) && (s.active ==> LedgerOk(s.window, s.defs, s.ledger) && CurrentOk(s.defs, s.ledger, s.current))
  }

  predicate Running(s: Runner) {
    s.active && RunnerOk(s)
  }

  predicate Belongs(session: Session, o: Output) {
    match o
    case Transmitted(interfaceIndex, _) => interfaceIndex == session.interfaceIndex
    case Progress(channel, txnId, _, _) => channel == session.channel && txnId == session.txnId
    case Missing(channel, txnId, _, _) => channel == session.channel && txnId == session.txnId
    case Finished(status) => status.channel == session.channel && status.txnId == session.txnId
  }

  predicate Plain(session: Session, outputs: seq<Output>) {
    forall o | o in outputs :: Belongs(session, o) && !o.Finished?
  }

  /** A status is the last word: it is given exactly when the transaction ends, and DONE means all was done. */
  predicate OutputsOk(session: Session, r: Result) {
    if r.next.active then Plain(session, r.outputs)
    else
      && r.outputs != []
      && var last := r.outputs[|r.outputs| - 1];
        && Plain(session, r.outputs[..|r.outputs| - 1])
        && last.Finished? && Belongs(session, last)
        && (last.status.done ==> AllDone(r.next.ledger, last.status))
  }

  predicate AllDone(l: Ledger, status: Status) {
    l.ended && l.consumed == l.pushed && l.completed == l.nextSeq == status.completed
  }

  /** Records only leave, oldest first; pushed - consumed being the ring's bytes, what left was consumed. */
  predicate Drains(l: Ledger, less: Ledger) {
    && less.pushed == l.pushed && less.nextSeq == l.nextSeq && less.ended == l.ended
    && |less.queue| <= |l.queue| && less.queue == l.queue[|l.queue| - |less.queue|..]
  }

  /** What a call made on a running transaction guarantees. */
  predicate Follows(s: Runner, r: Result) {
    && RunnerOk(r.next) && OutputsOk(s.session, r)
    && r.next.session == s.session && r.next.window == s.window
  }

  /** As Follows, for what the agent does by itself: it takes nothing in and overruns nothing. */
  predicate Executes(s: Runner, r: Result) {
    && Follows(s, r) && r.next.defs == s.defs
    && (r.next.active ==> Drains(s.ledger, r.next.ledger))
    && forall o | o in r.outputs :: o.Finished? ==> o.status.reason != Overrun
  }

  /** As Executes, for all but the progress report that ends a tick. */
  predicate Kept(s: Runner, r: Result) {
    Executes(s, r) && forall o | o in r.outputs :: !o.Progress?
  }

  lemma AfterPlain(session: Session, outputs: seq<Output>, r: Result)
    requires Plain(session, outputs) && OutputsOk(session, r)
    ensures OutputsOk(session, After(outputs, r))
  {
    if !r.next.active {
      var all := outputs + r.outputs;
      assert all[..|all| - 1] == outputs + r.outputs[..|r.outputs| - 1];
      assert all[|all| - 1] == r.outputs[|r.outputs| - 1];
    }
  }

  lemma ReleaseKeeps(window: u32, d: Definitions, l: Ledger, finished: bool)
    requires LedgerOk(window, d, l) && l.queue != [] && finished == !l.queue[0].isContinued
    ensures var less := Release(l, RecordSize(l.queue[0]));
      LedgerOk(window, d, if finished then less.(completed := (less.completed + 1) % WORD) else less)
  {
    WrapSum(l.consumed + RecordSize(l.queue[0]), Bytes(l.queue[1..]));
    WrapSum(l.completed + 1, Counted(l.queue[1..]));
  }

  lemma {:induction false} Bounded(elements: set<nat>, n: nat)
    requires forall i | i in elements :: i < n
    ensures |elements| <= n
    decreases n
  {
    if n > 0 {
      Bounded(elements - {n - 1}, n - 1);
    } else {
      assert elements == {};
    }
  }

  lemma FrontAccepted(s: Runner)
    requires Running(s) && s.ledger.queue != []
    ensures AcceptsRecord(s.defs, s.ledger.queue[0])
  {
    assert s.ledger.queue[0] in s.ledger.queue;
  }

  lemma OneMoreAnswer(d: Definitions, t: Template, c: ActiveStep, i: nat)
    requires AnswersOk(d, t, c) && RosterCount(d) <= ROSTER_MAX && t.mode != MODE_COUNT
    requires IsFirst(Nodes(d), i) && i !in c.seen
    ensures AnswersOk(d, t, AnswerSeen(d, t, c, i))
  {
    Bounded(c.seen, RosterCount(d));
  }

  /** A template in use asks for at least one answer. */
  lemma NeededPositive(d: Definitions, t: Template)
    requires IsTemplateSound(d, t) && IsWaitingMode(t.mode)
    ensures Needed(d, t) > 0
  {
  }

  // ---------- reports ----------

  function RxOf(f: Frame): RxFrame {
    RxFrame(f.canId, f.frameFlags, f.payload)
  }

  function PrepareStatus(s: Runner, done: bool, reason: Reason): Status {
    Status(s.session.channel, s.session.txnId, done, reason, s.ledger.completed, s.ledger.completed,
           s.current.seen, s.current.phase != Idle && IsRosterMode(CurrentTemplate(s).mode), s.current.rx, {}, {}, {})
  }

  function Finish(s: Runner, status: Status): (r: Result)
    requires BaseOk(s) && status.channel == s.session.channel && status.txnId == s.session.txnId
    requires status.done ==> AllDone(s.ledger, status)
    ensures Follows(s, r) && !r.next.active
    ensures status.reason != Overrun ==> Kept(s, r)
  {
    Result(s.(active := false, ledger := s.ledger.(queue := [])), [Finished(status)], false)
  }

  function AbortWith(s: Runner, reason: Reason, failingSeq: u32): (r: Result)
    requires BaseOk(s)
    ensures Follows(s, r) && !r.next.active
    ensures reason != Overrun ==> Kept(s, r)
  {
    Finish(s, PrepareStatus(s, false, reason).(failingSeq := failingSeq))
  }

  function AbortOnFrame(s: Runner, reason: Reason, f: Frame, expected: W64, got: W64): (r: Result)
    requires BaseOk(s) && reason != Overrun
    ensures Kept(s, r) && !r.next.active
  {
    var kept := s.(current := s.current.(rx := Some(RxOf(f))));
    Finish(kept, PrepareStatus(kept, false, reason).(origin := ExtractOrigin(s.defs, f), expected := expected, got := got))
  }

  function FinishDone(s: Runner): (r: Result)
    requires Running(s) && s.ledger.queue == [] && s.ledger.ended
    ensures Kept(s, r) && FramesAndStatus(r.outputs) && !r.next.active
  {
    Finish(s, PrepareStatus(s, true, NoReason))
  }

  // ---------- steps ----------

  function MissingReport(s: Runner): seq<Output> {
    if !IsRosterMode(CurrentTemplate(s).mode) || s.current.seenCount >= RosterCount(s.defs) then []
    else [Missing(s.session.channel, s.session.txnId, s.ledger.completed, s.current.seen)]
  }

  function CompleteStep(s: Runner): (r: Result)
    requires Running(s) && s.current.phase != Idle
    ensures Kept(s, r) && r.next.active && r.next.current.phase == Idle
  {
    ReleaseKeeps(s.window, s.defs, s.ledger, true);
    var l := Release(s.ledger, s.current.recordSize);
    Result(s.(ledger := l.(completed := (l.completed + 1) % WORD),
              message := [], current := s.current.(phase := Idle)),
           MissingReport(s), true)
  }

  /** The front record is the current step, nothing has answered it yet, and it waits for answers. */
  predicate CanWait(s: Runner) {
    var c := s.current;
    && s.ledger.queue != [] && s.ledger.queue[0] == c.step && c.recordSize == RecordSize(c.step) && !c.step.isContinued
    && IsWaitingMode(CurrentTemplate(s).mode)
    && c.seen == {} && c.matchCount == 0 && !c.satisfied
  }

  function StartWait(s: Runner, now: nat): (w: Runner)
    requires Running(s) && CanWait(s)
    ensures Running(w) && w.current.phase == Wait
    ensures w.session == s.session && w.window == s.window && w.defs == s.defs
  {
    NeededPositive(s.defs, CurrentTemplate(s));
    s.(current := s.current.(phase := Wait, deadlineUs := now + CurrentTemplate(s).timeoutMs * 1000))
  }

  function FinishTransmit(s: Runner, now: nat): (r: Result)
    requires Running(s) && s.current.phase == Transmit
    ensures Kept(s, r) && FramesAndStatus(r.outputs) && r.next.active
  {
    var t := CurrentTemplate(s);
    var spaced := s.(nextTransmitUs := now + t.gapUs);
    if !IsWaitingMode(t.mode) then CompleteStep(spaced)
    else Result(StartWait(spaced, now), [], true)
  }

  function TransmitTimeoutUs(t: Template): nat {
    (if t.timeoutMs == 0 then DEFAULT_TX_TIMEOUT_MS else t.timeoutMs) * 1000
  }

  function ExtendTimeoutUs(t: Template): nat {
    (if t.extendTimeoutMs == 0 then t.timeoutMs else t.extendTimeoutMs) * 1000
  }

  predicate IsIsotpStep(s: Runner) {
    s.current.phase != Idle && CurrentTemplate(s).kind == TYPE_ISOTP
  }

  /** Frames the link put on the bus, and the link it left. */
  function WithLink(s: Runner, o: I.Out, now: nat): Runner {
    s.(link := o.link, lastFrameUs := if o.frames != [] then now else s.lastFrameUs)
  }

  function Emitted(s: Runner, frames: seq<Frame>): seq<Output> {
    seq(|frames|, i requires 0 <= i < |frames| => Transmitted(s.session.interfaceIndex, frames[i]))
  }

  /** Frames put on the bus before what follows them. */
  lemma SentFirst(s: Runner, mid: Runner, frames: seq<Frame>, r: Result)
    requires Kept(mid, r)
    requires mid.session == s.session && mid.window == s.window && mid.defs == s.defs && mid.ledger == s.ledger
    ensures Kept(s, After(Emitted(s, frames), r))
    ensures FramesAndStatus(r.outputs) ==> FramesAndStatus(Emitted(s, frames) + r.outputs)
  {
    var sent := Emitted(s, frames);
    assert Plain(s.session, sent) && FramesAndStatus(sent);
    AfterPlain(s.session, sent, r);
  }

  // ---------- loops over what the bus answers ----------

  function Head<A>(answers: seq<A>): Option<A> {
    if answers == [] then None else Some(answers[0])
  }

  function Tail<A>(answers: seq<A>): seq<A> {
    if answers == [] then [] else answers[1..]
  }

  /** Passes until one stops the loop or the budget runs out; `again` tells the latter. */
  function Repeat<A>(pass: (Runner, Option<A>) -> Result, s: Runner, budget: nat, answers: seq<A>): Result
    decreases budget
  {
    if budget == 0 then Result(s, [], true)
    else
      var first := pass(s, Head(answers));
      if !first.next.active || !first.again then first.(again := false)
      else After(first.outputs, Repeat(pass, first.next, budget - 1, Tail(answers)))
  }

  /** `kept` relates a state to what passes make of it: it chains from pass to pass while `ready` holds. */
  ghost predicate Chains(ready: Runner -> bool, kept: (Runner, Result) -> bool) {
    && (forall s | ready(s) :: kept(s, Result(s, [], true)))
    && (forall s, r | kept(s, r) && (!r.next.active || !r.again) :: kept(s, r.(again := false)))
    && (forall s, r | kept(s, r) && r.next.active && r.again :: ready(r.next))
    && (forall s, r, q | kept(s, r) && r.next.active && kept(r.next, q) :: kept(s, After(r.outputs, q)))
  }

  lemma {:induction false} RepeatChains<A(!new)>(
    pass: (Runner, Option<A>) -> Result, ready: Runner -> bool, kept: (Runner, Result) -> bool,
    s: Runner, budget: nat, answers: seq<A>)
    requires Chains(ready, kept) && (forall x, a | ready(x) :: kept(x, pass(x, a))) && ready(s)
    ensures kept(s, Repeat(pass, s, budget, answers))
    decreases budget
  {
    if budget > 0 {
      var first := pass(s, Head(answers));
      if first.next.active && first.again {
        RepeatChains(pass, ready, kept, first.next, budget - 1, Tail(answers));
      }
    }
  }

  lemma RepeatStops<A>(pass: (Runner, Option<A>) -> Result, s: Runner, budget: nat, answers: seq<A>)
    requires budget > 0 && !pass(s, Head(answers)).again
    ensures Repeat(pass, s, budget, answers) == pass(s, Head(answers))
  {
  }

  lemma DrainsChains(l: Ledger, m: Ledger, n: Ledger)
    requires Drains(l, m) && Drains(m, n)
    ensures Drains(l, n)
  {
  }

  lemma KeptChains(s: Runner, r: Result, q: Result)
    requires Kept(s, r) && r.next.active && Kept(r.next, q)
    ensures Kept(s, After(r.outputs, q))
  {
    AfterPlain(s.session, r.outputs, q);
    if q.next.active {
      DrainsChains(s.ledger, r.next.ledger, q.next.ledger);
    }
  }

  // ---------- frames from the bus ----------

  predicate IsWaiting(s: Runner) {
    s.current.phase == Wait && !s.current.satisfied
  }

  predicate IsBetweenSteps(s: Runner) {
    s.current.phase == Idle || (s.current.phase == Wait && s.current.satisfied)
  }

  function AnswerSeen(d: Definitions, t: Template, c: ActiveStep, i: nat): ActiveStep {
    var count := (c.seenCount + 1) % 0x100;
    c.(seen := c.seen + {i}, seenCount := count, satisfied := count >= Needed(d, t))
  }

  function RecordRosterAnswer(s: Runner, f: Frame): (w: Runner)
    requires Running(s) && IsWaiting(s) && CurrentTemplate(s).mode != MODE_COUNT
    ensures Running(w) && w == s.(current := w.current) && SameStep(s.current, w.current)
  {
    match FindNode(Nodes(s.defs), ExtractOrigin(s.defs, f))
    case None => s
    case Some(i) =>
      if i in s.current.seen then s
      else
        OneMoreAnswer(s.defs, CurrentTemplate(s), s.current, i);
        s.(current := AnswerSeen(s.defs, CurrentTemplate(s), s.current, i))
  }

  function RecordAnswer(s: Runner, f: Frame): (w: Runner)
    requires Running(s) && IsWaiting(s)
    ensures Running(w) && w == s.(current := w.current) && SameStep(s.current, w.current)
  {
    var kept := s.(current := s.current.(rx := Some(RxOf(f))));
    if CurrentTemplate(s).mode != MODE_COUNT then RecordRosterAnswer(kept, f)
    else
      var count := (s.current.matchCount + 1) % 0x100;
      kept.(current := kept.current.(matchCount := count, satisfied := count >= CurrentTemplate(s).countK))
  }

  /** Frames from the bus lead to frames sent and a status, no other report. */
  predicate FramesAndStatus(outputs: seq<Output>) {
    forall o | o in outputs :: o.Transmitted? || o.Finished?
  }

  predicate SameStep(c: ActiveStep, n: ActiveStep) {
    && n.step == c.step && n.recordSize == c.recordSize && n.phase == c.phase
    && n.messageStarted == c.messageStarted && n.deadlineUs == c.deadlineUs && n.retryAtUs == c.retryAtUs
  }

  /** Matching a frame touches the answers and may end the transaction. */
  predicate OnlyAnswers(s: Runner, n: Runner) {
    n == s.(active := n.active, ledger := n.ledger, current := n.current) && SameStep(s.current, n.current)
  }

  /** What the verdict on a frame leads to. */
  function Act(s: Runner, f: Frame, verdict: Verdict, expected: W64, got: W64): Result
    requires Running(s) && IsWaiting(s)
  {
    match verdict
    case Extends => Result(s.(current := s.current.(rx := Some(RxOf(f)), extendRequested := true)), [], false)
    case Aborts => AbortOnFrame(s, AbortMatch, f, {}, got)
    case Advances => Result(RecordAnswer(s, f), [], false)
    case Mismatch => AbortOnFrame(s, ValueMismatch, f, expected, got)
    case Ignored => Result(s, [], false)
  }

  function AbortReason(verdict: Verdict): Reason {
    if verdict == Aborts then AbortMatch else ValueMismatch
  }

  /** The value a status shows as expected. */
  function ShownOnAbort(verdict: Verdict, expected: W64): W64 {
    if verdict == Aborts then {} else expected
  }

  /** The step goes on after a frame that does not end it. */
  function GoesOn(s: Runner, f: Frame, verdict: Verdict): Runner
    requires Running(s) && IsWaiting(s)
  {
    match verdict
    case Advances => RecordAnswer(s, f)
    case Extends => s.(current := s.current.(rx := Some(RxOf(f)), extendRequested := true))
    case _ => s
  }

  lemma ActGoesOn(s: Runner, f: Frame, verdict: Verdict, expected: W64, got: W64)
    requires Running(s) && IsWaiting(s) && verdict != Aborts && verdict != Mismatch
    ensures Act(s, f, verdict, expected, got) == Result(GoesOn(s, f, verdict), [], false)
  {
  }

  lemma ActAborts(s: Runner, f: Frame, verdict: Verdict, expected: W64, got: W64)
    requires Running(s) && IsWaiting(s) && (verdict == Aborts || verdict == Mismatch)
    ensures Act(s, f, verdict, expected, got)
         == AbortOnFrame(s, AbortReason(verdict), f, ShownOnAbort(verdict, expected), got)
  {
  }

  lemma ActKeeps(s: Runner, f: Frame, verdict: Verdict, expected: W64, got: W64)
    requires Running(s) && IsWaiting(s)
    ensures var r := Act(s, f, verdict, expected, got);
      Kept(s, r) && OnlyAnswers(s, r.next) && FramesAndStatus(r.outputs)
  {
  }

  function Expected(s: Runner): W64 {
    var t := CurrentTemplate(s);
    if t.advance.Some? then ExpectedValue(s.current.step, t.advance.value) else {}
  }

  function VerdictOn(s: Runner, f: Frame): Verdict {
    Judge(CurrentTemplate(s), s.current.step, OfU32(f.canId), PayloadWord(f.payload))
  }

  function MatchFrame(s: Runner, f: Frame): (r: Result)
    requires Running(s) && IsWaiting(s)
    ensures Kept(s, r) && OnlyAnswers(s, r.next) && FramesAndStatus(r.outputs)
  {
    ActKeeps(s, f, VerdictOn(s, f), Expected(s), PayloadWord(f.payload));
    Act(s, f, VerdictOn(s, f), Expected(s), PayloadWord(f.payload))
  }

  /** The reassembled message as a frame to match: its first 64 bytes. */
  function MessageFrame(l: I.Link): Frame
    requires |l.buffer| == I.MESSAGE_SIZE_MAX
  {
    Frame(l.params.responseId, l.channel, 0, false, l.buffer[..Min(l.receiver.length, PAYLOAD_MAX_FD)])
  }

  /** What follows from a frame given to the link, after the frames the link sent. */
  function FedFollows(s: Runner, o: I.Out): (r: Result)
    requires Running(s) && I.LinkOk(o.link)
    ensures Kept(WithLink(s, o, s.lastTickUs), r) && FramesAndStatus(r.outputs)
  {
    var fed := WithLink(s, o, s.lastTickUs);
    if o.event == I.Failed then AbortWith(fed, LinkFailed(o.link.failure), s.ledger.completed)
    else if o.event != I.Message || !IsWaiting(s) then Result(fed, [], false)
    else MatchFrame(fed, MessageFrame(o.link))
  }

  /** What a frame given to the link comes to. */
  function FedOutcome(s: Runner, o: I.Out): (r: Result)
    requires Running(s) && I.LinkOk(o.link)
    ensures Kept(s, r) && FramesAndStatus(r.outputs)
  {
    SentFirst(s, WithLink(s, o, s.lastTickUs), o.frames, FedFollows(s, o));
    After(Emitted(s, o.frames), FedFollows(s, o))
  }

  function FeedIsotp(s: Runner, f: Frame, ok: bool): (r: Result)
    requires Running(s)
    ensures Kept(s, r) && FramesAndStatus(r.outputs)
  {
    FedOutcome(s, I.OnFrame(s.link, f, s.lastTickUs, ok))
  }

  function DispatchFrame(s: Runner, f: Frame, ok: bool): (r: Result)
    requires Running(s)
    ensures Kept(s, r) && FramesAndStatus(r.outputs)
  {
    if IsIsotpStep(s) then FeedIsotp(s, f, ok)
    else if IsWaiting(s) then MatchFrame(s, f)
    else Result(s, [], false)
  }

  function Replayer(): (Runner, Option<(Frame, bool)>) -> Result {
    (s: Runner, x: Option<(Frame, bool)>) =>
      if Running(s) && x.Some? then
        var r := DispatchFrame(s, x.value.0, x.value.1);
        r.(again := r.next.active)
      else Result(s, [], s.active)
  }

  predicate KeptReplay(s: Runner, r: Result) {
    Kept(s, r) && FramesAndStatus(r.outputs) && r.again == r.next.active
  }

  lemma ReplayChains()
    ensures Chains(Running, KeptReplay)
  {
    forall s, r, q | KeptReplay(s, r) && r.next.active && KeptReplay(r.next, q) ensures KeptReplay(s, After(r.outputs, q)) {
      KeptChains(s, r, q);
    }
  }

  function WithAnswers<A>(frames: seq<A>, oks: seq<bool>): seq<(A, bool)> {
    seq(|frames|, i requires 0 <= i < |frames| => (frames[i], i < |oks| && oks[i]))
  }

  lemma ReplayerKeeps(s: Runner, x: Option<(Frame, bool)>)
    requires Running(s)
    ensures KeptReplay(s, Replayer()(s, x))
  {
  }

  lemma ReplayKeeps(s: Runner, frames: seq<Frame>, oks: seq<bool>)
    requires Running(s)
    ensures KeptReplay(s, Repeat(Replayer(), s, |frames|, WithAnswers(frames, oks)))
  {
    ReplayChains();
    forall x, a | Running(x) ensures KeptReplay(x, Replayer()(x, a)) {
      ReplayerKeeps(x, a);
    }
    RepeatChains(Replayer(), Running, KeptReplay, s, |frames|, WithAnswers(frames, oks));
  }

  /** Frames one by one, until one ends the transaction. */
  function ReplayFrames(s: Runner, frames: seq<Frame>, oks: seq<bool>): (r: Result)
    requires Running(s)
    ensures KeptReplay(s, r)
  {
    ReplayKeeps(s, frames, oks);
    Repeat(Replayer(), s, |frames|, WithAnswers(frames, oks))
  }

  function OnFrame(s: Runner, interfaceIndex: u8, f: Frame, ok: bool): (r: Result)
    requires RunnerOk(s)
    ensures s.active ==> Kept(s, r)
    ensures !s.active ==> r == Result(s, [], false)
  {
    if !s.active || interfaceIndex != s.session.interfaceIndex || f.echo then Result(s, [], false)
    else if IsBetweenSteps(s) then
      Result(if |s.early| == EARLY_FRAMES_MAX then s else s.(early := s.early + [f]), [], false)
    else DispatchFrame(s, f, ok)
  }

  // ---------- one pass ----------

  function KeepaliveDueUs(s: Runner): nat {
    s.lastFrameUs + s.session.keepalive.periodMs * 1000
  }

  function KeepaliveFrame(s: Runner): Frame {
    var k := s.session.keepalive;
    Frame(k.canId, s.session.channel, k.frameFlags, false, k.payload)
  }

  function SendKeepaliveIfDue(s: Runner, now: nat, ok: bool): (r: Result)
    requires Running(s)
    ensures Kept(s, r) && FramesAndStatus(r.outputs)
  {
    if s.session.keepalive.periodMs == 0 || now < KeepaliveDueUs(s) || !ok then Result(s, [], false)
    else Result(s.(lastFrameUs := now, early := []),
                [Transmitted(s.session.interfaceIndex, KeepaliveFrame(s))], false)
  }

  function WaitForSteps(s: Runner, now: nat, ok: bool): (r: Result)
    requires Running(s)
    ensures Kept(s, r) && FramesAndStatus(r.outputs) && !r.again
  {
    var timed := if s.starveDeadlineUs == 0 then s.(starveDeadlineUs := now + s.session.idleTimeoutUs) else s;
    if now >= timed.starveDeadlineUs then AbortWith(timed, Starved, s.ledger.completed)
    else SendKeepaliveIfDue(timed, now, ok)
  }

  /** The front record has been loaded. */
  predicate IsLoaded(s: Runner) {
    s.ledger.queue != [] && s.current == NOTHING.(step := s.ledger.queue[0], recordSize := RecordSize(s.ledger.queue[0]))
  }

  /** An ISO-TP step opens its link. */
  function Opened(s: Runner): (w: Runner)
    requires Running(s) && IsLoaded(s)
    ensures Running(w) && w == s.(link := w.link)
  {
    FrontAccepted(s);
    var t := CurrentTemplate(s);
    if t.kind == TYPE_ISOTP then s.(link := I.Open(s.link, s.current.step.canId, s.session.channel, t.isotp)) else s
  }

  function StartStep(s: Runner, now: nat, a: Answers): (r: Result)
    requires Running(s) && IsLoaded(s) && !s.current.step.isContinued
    ensures Kept(s, r) && FramesAndStatus(r.outputs)
  {
    FrontAccepted(s);
    var ready := Opened(s);
    if s.current.step.expectOnly then ReplayFrames(StartWait(ready, now).(early := []), s.early, a.oks)
    else Result(ready.(current := ready.current.(phase := Transmit), early := []), [], true)
  }

  /** The front record becomes the current step. */
  function Loaded(s: Runner): (w: Runner)
    requires Running(s) && s.ledger.queue != []
    ensures Running(w) && IsLoaded(w)
  {
    var step := s.ledger.queue[0];
    s.(current := NOTHING.(step := step, recordSize := RecordSize(step)), starveDeadlineUs := 0)
  }

  /** A message record joins the message; all but the last are released at once. */
  function GatherMessage(s: Runner, now: nat, a: Answers): (r: Result)
    requires Running(s) && IsLoaded(s)
    ensures Kept(s, r) && FramesAndStatus(r.outputs)
  {
    var step := s.current.step;
    if |s.message| + |step.payload| > I.MESSAGE_SIZE_MAX then AbortWith(s, InvalidStep, s.ledger.completed)
    else
      var gathered := s.(message := s.message + step.payload);
      if step.isContinued then
        ReleaseKeeps(s.window, s.defs, s.ledger, false);
        Result(gathered.(ledger := Release(s.ledger, s.current.recordSize)), [], true)
      else StartStep(gathered, now, a)
  }

  function LoadNextStep(s: Runner, now: nat, a: Answers): (r: Result)
    requires Running(s) && s.current.phase == Idle
    ensures Kept(s, r) && FramesAndStatus(r.outputs)
  {
    if s.ledger.queue == [] then
      if s.ledger.ended then FinishDone(s) else WaitForSteps(s, now, a.ok)
    else
      FrontAccepted(s);
      var loaded := Loaded(s);
      if loaded.current.step.isMessage then GatherMessage(loaded, now, a) else StartStep(loaded, now, a)
  }

  function StepFrame(s: Runner): Frame
    requires |s.current.step.payload| <= PAYLOAD_MAX_FD
  {
    var step := s.current.step;
    Frame(step.canId, s.session.channel, step.frameFlags, false, step.payload)
  }

  function StartedMessage(s: Runner, now: nat): (w: Runner)
    requires Running(s) && s.current.phase == Transmit
    ensures Running(w) && w.session == s.session && w.window == s.window && w.defs == s.defs && w.current.phase == Transmit
  {
    if s.current.messageStarted then s
    else s.(link := I.Send(s.link, s.message, now), current := s.current.(messageStarted := true))
  }

  /** What follows from the link's tick while the message is being sent, after the frames the link sent. */
  function MessageFollows(s: Runner, o: I.Out, now: nat): (r: Result)
    requires Running(s) && s.current.phase == Transmit && I.LinkOk(o.link)
    ensures Kept(WithLink(s, o, now), r) && FramesAndStatus(r.outputs)
  {
    var ticked := WithLink(s, o, now);
    if o.event == I.Failed then AbortWith(ticked, LinkFailed(o.link.failure), s.ledger.completed)
    else if o.event == I.Sent then FinishTransmit(ticked, now)
    else Result(ticked, [], false)
  }

  /** What the link's tick comes to while the message is being sent. */
  function MessageOutcome(s: Runner, o: I.Out, now: nat): (r: Result)
    requires Running(s) && s.current.phase == Transmit && I.LinkOk(o.link)
    ensures Kept(s, r) && FramesAndStatus(r.outputs)
  {
    SentFirst(s, WithLink(s, o, now), o.frames, MessageFollows(s, o, now));
    After(Emitted(s, o.frames), MessageFollows(s, o, now))
  }

  function TransmitMessage(s: Runner, now: nat, a: Answers): (r: Result)
    requires Running(s) && s.current.phase == Transmit
    ensures Kept(s, r) && FramesAndStatus(r.outputs)
  {
    var started := StartedMessage(s, now);
    MessageOutcome(started, I.Tick(started.link, now, a.ok, a.oks), now)
  }

  /** The first attempt sets the time to give up. */
  function Timed(s: Runner, now: nat): (w: Runner)
    requires Running(s) && s.current.phase == Transmit
    ensures Running(w) && w == s.(current := w.current) && w.current.phase == Transmit && w.current.step == s.current.step
  {
    if s.current.deadlineUs != 0 then s
    else s.(current := s.current.(deadlineUs := now + TransmitTimeoutUs(CurrentTemplate(s))))
  }

  function FrameRefused(s: Runner, now: nat): (r: Result)
    requires Running(s) && s.current.phase == Transmit
    ensures Kept(s, r) && FramesAndStatus(r.outputs)
  {
    if now >= s.current.deadlineUs then AbortWith(s, TxFailed, s.ledger.completed)
    else Result(s.(current := s.current.(retryAtUs := now + TX_RETRY_US)), [], false)
  }

  function TransmitFrame(s: Runner, now: nat, ok: bool): (r: Result)
    requires Running(s) && s.current.phase == Transmit && !IsIsotpStep(s)
    ensures Kept(s, r) && FramesAndStatus(r.outputs)
  {
    FrontAccepted(s);
    var timed := Timed(s, now);
    if !ok then FrameRefused(timed, now)
    else
      var sent := timed.(lastFrameUs := now);
      var r := FinishTransmit(sent, now);
      SentFirst(s, sent, [StepFrame(s)], r);
      After(Emitted(s, [StepFrame(s)]), r)
  }

  function TransmitStep(s: Runner, now: nat, a: Answers): (r: Result)
    requires Running(s) && s.current.phase == Transmit
    ensures Kept(s, r) && FramesAndStatus(r.outputs)
  {
    if now < s.nextTransmitUs || now < s.current.retryAtUs then Result(s, [], false)
    else if IsIsotpStep(s) then TransmitMessage(s, now, a)
    else TransmitFrame(s, now, a.ok)
  }

  function Settle(s: Runner, now: nat): (r: Result)
    requires Running(s) && s.current.phase == Wait
    ensures Kept(s, r)
  {
    var t := CurrentTemplate(s);
    if s.current.satisfied then CompleteStep(s)
    else
      var extended := if !s.current.extendRequested then s
                      else s.(current := s.current.(extendRequested := false, deadlineUs := now + ExtendTimeoutUs(t)));
      if now < extended.current.deadlineUs then Result(extended, [], false)
      else if t.soft then CompleteStep(extended)
      else AbortWith(extended, Timeout, s.ledger.completed)
  }

  /** What follows from the link's tick while the step waits, after the frames the link sent. */
  function WaitFollows(s: Runner, o: I.Out, now: nat): (r: Result)
    requires Running(s) && s.current.phase == Wait && I.LinkOk(o.link)
    ensures Kept(WithLink(s, o, now), r)
  {
    var ticked := WithLink(s, o, now);
    if o.event == I.Failed then AbortWith(ticked, LinkFailed(o.link.failure), s.ledger.completed)
    else Settle(ticked, now)
  }

  /** What the link's tick comes to while the step waits. */
  function WaitOutcome(s: Runner, o: I.Out, now: nat): (r: Result)
    requires Running(s) && s.current.phase == Wait && I.LinkOk(o.link)
    ensures Kept(s, r)
  {
    SentFirst(s, WithLink(s, o, now), o.frames, WaitFollows(s, o, now));
    After(Emitted(s, o.frames), WaitFollows(s, o, now))
  }

  function SettleWait(s: Runner, now: nat, a: Answers): (r: Result)
    requires Running(s) && s.current.phase == Wait
    ensures Kept(s, r)
  {
    if !IsIsotpStep(s) then Settle(s, now)
    else WaitOutcome(s, I.Tick(s.link, now, a.ok, a.oks), now)
  }

  function RunOnce(s: Runner, now: nat, a: Answers): (r: Result)
    requires Running(s)
    ensures Kept(s, r)
  {
    match s.current.phase
    case Idle => LoadNextStep(s, now, a)
    case Transmit => TransmitStep(s, now, a)
    case Wait => SettleWait(s, now, a)
  }

  const NO_ANSWERS := Answers(false, [])

  function Pass(now: nat): (Runner, Option<Answers>) -> Result {
    (s: Runner, a: Option<Answers>) =>
      if Running(s) then RunOnce(s, now, if a.Some? then a.value else NO_ANSWERS) else Result(s, [], false)
  }

  lemma RepeatKeeps(s: Runner, now: nat, answers: seq<Answers>)
    requires Running(s)
    ensures Kept(s, Repeat(Pass(now), s, StepsPerTick(), answers))
  {
    forall x, r, q | Kept(x, r) && r.next.active && Kept(r.next, q) ensures Kept(x, After(r.outputs, q)) {
      KeptChains(x, r, q);
    }
    RepeatChains(Pass(now), Running, Kept, s, StepsPerTick(), answers);
  }

  function Unreported(s: Runner): u32 {
    (s.ledger.consumed - s.reported) % WORD
  }

  function ReportProgress(s: Runner): Result {
    Result(s.(reported := s.ledger.consumed, reportDueUs := 0),
           [Progress(s.session.channel, s.session.txnId, s.ledger.completed, s.ledger.consumed)], false)
  }

  /** Progress reports tell the counters of the state they leave. */
  predicate ReportsTruly(r: Result) {
    forall o | o in r.outputs :: o.Progress? ==>
      r.next.active && o.completed == r.next.ledger.completed && o.consumed == r.next.ledger.consumed
  }

  datatype FlushAction = Keep | Arm | Tell

  /** Progress is reported when enough is pending, or when it has been pending long enough. */
  function FlushDecision(pending: u32, window: u32, dueUs: nat, now: nat): FlushAction {
    if pending == 0 then Keep
    else if pending >= window / PROGRESS_THRESHOLD_DIVISOR then Tell
    else if dueUs == 0 then Arm
    else if now >= dueUs then Tell
    else Keep
  }

  function FlushedBy(s: Runner, now: nat, action: FlushAction): Result {
    match action
    case Keep => Result(s, [], false)
    case Arm => Result(s.(reportDueUs := now + PROGRESS_FLUSH_US), [], false)
    case Tell => ReportProgress(s)
  }

  function Flushed(s: Runner, now: nat): Result {
    FlushedBy(s, now, FlushDecision(Unreported(s), s.window, s.reportDueUs, now))
  }

  lemma FlushKeeps(s: Runner, now: nat, action: FlushAction)
    requires Running(s)
    ensures var r := FlushedBy(s, now, action); Executes(s, r) && r.next.active && ReportsTruly(r)
  {
  }

  /** `again` tells that the tick stopped on its budget of passes. */
  function Tick(s: Runner, now: nat, answers: seq<Answers>): (r: Result)
    requires RunnerOk(s)
    ensures s.active ==> Executes(s, r) && ReportsTruly(r)
    ensures !s.active ==> r == Result(s, [], false)
  {
    if !s.active then Result(s, [], false)
    else
      RepeatKeeps(s.(lastTickUs := now), now, answers);
      var run := Repeat(Pass(now), s.(lastTickUs := now), StepsPerTick(), answers);
      if !run.next.active then run
      else
        var flushed := Flushed(run.next, now);
        FlushKeeps(run.next, now, FlushDecision(Unreported(run.next), run.next.window, run.next.reportDueUs, now));
        AfterPlain(s.session, run.outputs, flushed);
        After(run.outputs, flushed).(again := run.again)
  }

  // ---------- wake time ----------

  function TransmitReadyUs(s: Runner): nat {
    var ready := if s.current.retryAtUs > s.nextTransmitUs then s.current.retryAtUs else s.nextTransmitUs;
    if ready < s.lastTickUs then s.lastTickUs else ready
  }

  function NextWakeUs(s: Runner): nat {
    var report := I.Earliest(0, s.reportDueUs);
    if !s.active then 0
    else
      match s.current.phase
      case Idle =>
        if s.ledger.queue != [] || s.ledger.ended then s.lastTickUs
        else
          var alive := if s.session.keepalive.periodMs == 0 then report else I.Earliest(report, KeepaliveDueUs(s));
          I.Earliest(alive, s.starveDeadlineUs)
      case Transmit =>
        I.Earliest(report, if s.current.messageStarted then I.NextWakeUs(s.link) else TransmitReadyUs(s))
      case Wait =>
        var wake := I.Earliest(report, s.current.deadlineUs);
        if IsIsotpStep(s) then I.Earliest(wake, I.NextWakeUs(s.link)) else wake
  }

  // ---------- messages from the client ----------

  datatype BeginStatus = BeginOk | Busy | Invalid

  datatype Ack = Ack(channel: u8, status: BeginStatus, txnId: u16, window: u32)

  predicate IsBeginValid(k: Keepalive) {
    k.periodMs == 0 || IsPayloadLengthValid(|k.payload|, k.frameFlags)
  }

  /** Transaction ids run through 1 to 0xFFFF; 0 means none. */
  function NextTxnId(id: u16): (n: u16)
    ensures n != 0
  {
    if id == 0xFFFF then 1 else id + 1
  }

  function BeginAck(s: Runner, channel: u8, k: Keepalive): Ack {
    if s.active then Ack(channel, Busy, 0, 0)
    else if !IsBeginValid(k) then Ack(channel, Invalid, 0, 0)
    else Ack(channel, BeginOk, NextTxnId(s.session.txnId), s.window)
  }

  function IdleTimeoutUs(idleTimeoutMs: u32): (us: nat)
    ensures us > 0
  {
    if idleTimeoutMs == 0 then STARVATION_TIMEOUT_US else idleTimeoutMs * 1000
  }

  function Begin(s: Runner, channel: u8, idleTimeoutMs: u32, k: Keepalive, interfaceIndex: u8, now: nat): (b: Runner)
    requires RunnerOk(s)
    ensures RunnerOk(b)
  {
    if BeginAck(s, channel, k).status != BeginOk then s
    else
      var session := Session(NextTxnId(s.session.txnId), channel, interfaceIndex, IdleTimeoutUs(idleTimeoutMs), k);
      Runner(s.window, true, session, NO_DEFINITIONS, Ledger([], 0, false, 0, 0, 0),
             0, 0, now + session.idleTimeoutUs, 0, now, now, NOTHING, s.link, [], [])
  }

  predicate IsFor(s: Runner, txnId: u16) {
    s.active && txnId == s.session.txnId
  }

  function DefineRosterCall(s: Runner, txnId: u16, r: Roster): (result: Result)
    requires RunnerOk(s)
    ensures s.active ==> Follows(s, result)
    ensures !s.active ==> result == Result(s, [], false)
  {
    if !IsFor(s, txnId) then Result(s, [], false)
    else if !AcceptsRoster(s.defs, r) then AbortWith(s, InvalidStep, s.ledger.nextSeq)
    else
      DefiningKeeps(s, DefineRoster(s.defs, r));
      Result(s.(defs := DefineRoster(s.defs, r)), [], false)
  }

  function DefineTemplateCall(s: Runner, txnId: u16, t: Template): (result: Result)
    requires RunnerOk(s)
    ensures s.active ==> Follows(s, result)
    ensures !s.active ==> result == Result(s, [], false)
  {
    if !IsFor(s, txnId) then Result(s, [], false)
    else if !IsTemplateValid(s.defs, t) then AbortWith(s, InvalidStep, s.ledger.nextSeq)
    else
      DefiningKeeps(s, DefineTemplate(s.defs, t));
      Result(s.(defs := DefineTemplate(s.defs, t)), [], false)
  }

  predicate Extends(d: Definitions, more: Definitions) {
    && (forall id | id in d.templates :: id in more.templates && more.templates[id] == d.templates[id])
    && (d.roster.Some? ==> more.roster == d.roster)
    && DefinitionsOk(more) && RosterCount(more) <= ROSTER_MAX
  }

  /** Definitions that only grow disturb neither the queued records nor the step in execution. */
  lemma DefiningKeeps(s: Runner, more: Definitions)
    requires Running(s) && Extends(s.defs, more)
    ensures Running(s.(defs := more))
  {
    forall q | q in s.ledger.queue ensures AcceptsRecord(more, q) {
      assert AcceptsRecord(s.defs, q);
    }
    if s.current.phase != Idle {
      FrontAccepted(s);
    }
  }

  datatype Pushed = Queued(ledger: Ledger, number: u32) | Refused(ledger: Ledger, reason: Reason, number: u32)

  function Queue(l: Ledger, step: TxnStep): Ledger {
    l.(queue := l.queue + [step], pushed := (l.pushed + RecordSize(step)) % WORD)
  }

  predicate HasRoom(window: u32, l: Ledger, size: nat) {
    (l.pushed - l.consumed) % WORD + size <= window
  }

  datatype Taking = Took(step: TxnStep, size: nat) | Declined(reason: Reason)

  /** The record at the front of a batch, if the agent can run it and has room for it. */
  function TakeRecord(window: u32, d: Definitions): (Ledger, seq<u8>) -> Taking {
    (l: Ledger, records: seq<u8>) =>
      match Decode(records)
      case None => Declined(InvalidStep)
      case Some(first) =>
        if !AcceptsRecord(d, first.item) then Declined(InvalidStep)
        else if !HasRoom(window, l, first.size) then Declined(Overrun)
        else Took(first.item, first.size)
  }

  function Drop(records: seq<u8>, size: nat): seq<u8> {
    if size <= |records| then records[size..] else []
  }

  /** A batch's records one by one, until one is declined. */
  function PushWith(take: (Ledger, seq<u8>) -> Taking, l: Ledger, records: seq<u8>, count: nat, number: u32): Pushed
    decreases count
  {
    if count == 0 then Queued(l, number)
    else
      match take(l, records)
      case Declined(reason) => Refused(l, reason, number)
      case Took(step, size) =>
        PushWith(take, Queue(l, step), Drop(records, size), count - 1, SeqAfter(number, step))
  }

  function PushRecords(window: u32, d: Definitions, l: Ledger, records: seq<u8>, count: nat, number: u32): Pushed {
    PushWith(TakeRecord(window, d), l, records, count, number)
  }

  lemma {:induction false} QueueCounts(queue: seq<TxnStep>, step: TxnStep)
    ensures Bytes(queue + [step]) == Bytes(queue) + RecordSize(step)
    ensures Counted(queue + [step]) == Counted(queue) + if step.isContinued then 0 else 1
    decreases |queue|
  {
    if queue == [] {
      assert Bytes([step]) == RecordSize(step) + Bytes([]);
      assert Counted([step]) == (if step.isContinued then 0 else 1) + Counted([]);
      assert queue + [step] == [step];
    } else {
      assert (queue + [step])[1..] == queue[1..] + [step];
      QueueCounts(queue[1..], step);
    }
  }

  /** The room the runner computes from its wrapping counters is the room in the ring. */
  lemma RoomIsReal(window: u32, d: Definitions, l: Ledger, size: nat)
    requires LedgerOk(window, d, l)
    ensures HasRoom(window, l, size) <==> Bytes(l.queue) + size <= window
  {
    WrapDifference(l.consumed, l.consumed, Bytes(l.queue));
  }

  lemma QueueKeeps(window: u32, d: Definitions, l: Ledger, step: TxnStep)
    requires LedgerOk(window, d, l) && AcceptsRecord(d, step) && HasRoom(window, l, RecordSize(step))
    ensures LedgerOk(window, d, Queue(l, step).(nextSeq := SeqAfter(l.nextSeq, step)))
  {
    QueueCounts(l.queue, step);
    RoomIsReal(window, d, l, RecordSize(step));
    WrapSum(l.consumed + Bytes(l.queue), RecordSize(step));
    WrapSum(l.completed + Counted(l.queue), 1);
  }

  lemma {:induction false} PushKeeps(window: u32, d: Definitions, l: Ledger, records: seq<u8>, count: nat, number: u32)
    requires LedgerOk(window, d, l.(nextSeq := number))
    ensures var p := PushRecords(window, d, l, records, count, number);
      p.Queued? ==> LedgerOk(window, d, p.ledger.(nextSeq := p.number))
    decreases count
  {
    if count > 0 && Decode(records).Some? {
      var first := Decode(records).value;
      if AcceptsRecord(d, first.item) && HasRoom(window, l, first.size) {
        QueueKeeps(window, d, l.(nextSeq := number), first.item);
        PushKeeps(window, d, Queue(l, first.item), records[first.size..], count - 1, SeqAfter(number, first.item));
      }
    }
  }

  lemma {:induction false} PushExtends(
    take: (Ledger, seq<u8>) -> Taking, l: Ledger, records: seq<u8>, count: nat, number: u32)
    ensures var p := PushWith(take, l, records, count, number);
      l.queue <= p.ledger.queue && p.ledger == l.(queue := p.ledger.queue, pushed := p.ledger.pushed)
    decreases count
  {
    if count > 0 && take(l, records).Took? {
      var step, size := take(l, records).step, take(l, records).size;
      PushExtends(take, Queue(l, step), Drop(records, size), count - 1, SeqAfter(number, step));
    }
  }

  /** What a batch comes to, but for the state it leaves. */
  function PushOutcome(s: Runner, firstSeq: u32, records: seq<u8>, count: nat): Pushed {
    if s.ledger.ended || firstSeq != s.ledger.nextSeq then Refused(s.ledger, InvalidStep, firstSeq)
    else PushRecords(s.window, s.defs, s.ledger, records, count, firstSeq)
  }

  function PushSteps(s: Runner, txnId: u16, firstSeq: u32, end: bool, records: seq<u8>, count: nat): (r: Result)
    requires RunnerOk(s)
    ensures s.active ==> Follows(s, r)
    ensures !s.active ==> r == Result(s, [], false)
  {
    if !IsFor(s, txnId) then Result(s, [], false)
    else
      match PushOutcome(s, firstSeq, records, count)
      case Refused(l, reason, number) => AbortWith(s.(ledger := l), reason, number)
      case Queued(l, number) =>
        PushKeeps(s.window, s.defs, s.ledger, records, count, firstSeq);
        PushExtends(TakeRecord(s.window, s.defs), s.ledger, records, count, firstSeq);
        Result(s.(ledger := l.(nextSeq := number, ended := end)), [], false)
  }

  function Abort(s: Runner, txnId: u16): (r: Result)
    requires RunnerOk(s)
    ensures s.active ==> Kept(s, r)
    ensures !s.active ==> r == Result(s, [], false)
  {
    if !IsFor(s, txnId) then Result(s, [], false) else AbortWith(s, Cancelled, s.ledger.completed)
  }

  function Cancel(s: Runner): (c: Runner)
    requires RunnerOk(s)
    ensures RunnerOk(c) && !c.active
  {
    s.(active := false, ledger := s.ledger.(queue := []))
  }
}
