/**
  The credit protocol of a transaction: a client that packs steps into batches
  within a window, a hub that relays them in order, an agent that buffers them
  in its ring, and progress reports that come back late or not at all.
 */
module Credit {
  import opened Frames
  import opened ByteStrings
  import opened StepCodec
  import opened AgentRules
  import opened TransactionRunner
  import S = TransactionSender

  /** The hub grants the client no more than this. */
  const RELAY_WINDOW_MAX := 48 * 1024

  datatype Msg =
    | StepsMsg(batch: Batch)
    | RosterMsg(txnId: u16, roster: Roster)
    | TemplateMsg(txnId: u16, template: Template)

  datatype Report = Report(txnId: u16, completed: u32, consumed: u32)

  /**
    Client, network and agent. The first `relayed` messages of `pipe` have
    passed the hub. `consumed` and `credited` are the agent's consumed bytes and
    those the client knows of, not wrapped; `marks` those of each report.
   */
  datatype World = World(
    sender: S.Sender, pipe: seq<Msg>, relayed: nat, runner: Runner, reports: seq<Report>,
    consumed: nat, credited: nat, marks: seq<nat>)

  datatype Action =
    | Offer(step: TxnStep) | EndTransaction | Flush | Define(msg: Msg)
    | Relay | Deliver | DeliverReport | LoseReport
    | AgentTick(now: nat, answers: seq<Answers>)
    | AgentFrame(interfaceIndex: u8, frame: Frame, ok: bool)
    | AgentAbort(txnId: u16)

  /** A TXN_STEPS body reaches the agent; one that does not decode is dropped. */
  function Arrive(s: Runner, body: seq<u8>): (r: Result)
    requires RunnerOk(s)
    ensures s.active ==> Follows(s, r)
    ensures !s.active ==> r == Result(s, [], false)
  {
    if DecodeBatch(body).None? then Result(s, [], false)
    else PushSteps(s, ReadU16(body[2..]), ReadU32(body[4..]), HasFlag(body[8], BATCH_FLAG_END), body[BATCH_FIXED_SIZE..], body[1])
  }

  /** A message reaches the agent, its channel rewritten by the hub. */
  function Receive(s: Runner, m: Msg): (r: Result)
    requires RunnerOk(s)
    requires m.StepsMsg? ==> |m.batch.steps| <= BATCH_COUNT_MAX
    ensures s.active ==> Follows(s, r)
    ensures !s.active ==> r == Result(s, [], false)
  {
    match m
    case StepsMsg(b) => Arrive(s, EncodeBatch(b.(channel := s.session.channel)))
    case RosterMsg(txnId, roster) => DefineRosterCall(s, txnId, roster)
    case TemplateMsg(txnId, template) => DefineTemplateCall(s, txnId, template)
  }

  predicate CanDeliver(w: World) {
    0 < w.relayed <= |w.pipe|
  }

  /** What an action makes the agent do. */
  function AgentResult(w: World, a: Action): (r: Result)
    requires RunnerOk(w.runner) && PipeOk(w)
  {
    match a
    case Deliver => if CanDeliver(w) then Receive(w.runner, w.pipe[0]) else Result(w.runner, [], false)
    case AgentTick(now, answers) => Tick(w.runner, now, answers)
    case AgentFrame(interfaceIndex, frame, ok) => OnFrame(w.runner, interfaceIndex, frame, ok)
    case AgentAbort(txnId) => Abort(w.runner, txnId)
    case _ => Result(w.runner, [], false)
  }

  function ReportsIn(outputs: seq<Output>): seq<Report> {
    if outputs == [] then []
    else (if outputs[0].Progress? then [Report(outputs[0].txnId, outputs[0].completed, outputs[0].consumed)] else [])
         + ReportsIn(outputs[1..])
  }

  function Repeated(x: nat, n: nat): (s: seq<nat>)
    ensures |s| == n && forall y | y in s :: y == x
  {
    seq(n, _ => x)
  }

  /** The agent moves on: what left its ring was consumed, its reports go on their way. */
  function AgentMoves(w: World, r: Result): World {
    var left := Bytes(w.runner.ledger.queue) - Bytes(r.next.ledger.queue);
    var consumed := w.consumed + if r.next.active && left > 0 then left else 0;
    var reports := ReportsIn(r.outputs);
    w.(runner := r.next, consumed := consumed, reports := w.reports + reports, marks := w.marks + Repeated(consumed, |reports|))
  }

  function Offered(w: World, step: TxnStep): World {
    w.(sender := S.Offer(w.sender, step))
  }

  function Ended(w: World): World {
    w.(sender := S.End(w.sender))
  }

  function Flushed(w: World): World {
    if w.sender.batch.None? then w
    else w.(pipe := w.pipe + [StepsMsg(w.sender.batch.value)], sender := S.BatchSent(w.sender))
  }

  /** A definition is sent once the open batch has left. */
  function Defined(w: World, msg: Msg): World {
    if msg.StepsMsg? || w.sender.batch.Some? then w else w.(pipe := w.pipe + [msg])
  }

  function Relayed(w: World): World {
    if w.relayed < |w.pipe| then w.(relayed := w.relayed + 1) else w
  }

  function Delivered(w: World, r: Result): World
    requires CanDeliver(w)
  {
    w.(runner := r.next, pipe := w.pipe[1..], relayed := w.relayed - 1)
  }

  function Reported(w: World): World {
    if w.reports == [] || w.marks == [] then w
    else
      var p := w.reports[0];
      w.(sender := S.OnProgress(w.sender, w.sender.channel, p.txnId, p.completed, p.consumed),
         credited := if w.sender.state == S.Running && p.txnId == w.sender.txnId then w.marks[0] else w.credited,
         reports := w.reports[1..], marks := w.marks[1..])
  }

  function Lost(w: World): World {
    if w.reports == [] || w.marks == [] then w else w.(reports := w.reports[1..], marks := w.marks[1..])
  }

  function Next(w: World, a: Action): World
    requires RunnerOk(w.runner) && PipeOk(w)
  {
    match a
    case Offer(step) => Offered(w, step)
    case EndTransaction => Ended(w)
    case Flush => Flushed(w)
    case Define(msg) => Defined(w, msg)
    case Relay => Relayed(w)
    case Deliver => if CanDeliver(w) then Delivered(w, AgentResult(w, a)) else w
    case DeliverReport => Reported(w)
    case LoseReport => Lost(w)
    case AgentTick(_, _) => AgentMoves(w, AgentResult(w, a))
    case AgentFrame(_, _, _) => AgentMoves(w, AgentResult(w, a))
    case AgentAbort(_) => AgentMoves(w, AgentResult(w, a))
  }

  // ---------- the invariant ----------

  predicate WireOk(txnId: u16, b: Batch) {
    && |b.steps| <= BATCH_COUNT_MAX && |EncodeAll(b.steps)| <= BATCH_RECORD_BYTES_MAX
    && (forall step | step in b.steps :: IsStepValid(step))
    && b.txnId == txnId
  }

  predicate PipeOk(w: World) {
    forall m | m in w.pipe && m.StepsMsg? :: WireOk(w.runner.session.txnId, m.batch)
  }

  /** The batches on their way continue each other, from the agent's next number to the client's. */
  predicate IsChain(pipe: seq<Msg>, from: u32, to: u32) {
    if pipe == [] then from == to
    else if !pipe[0].StepsMsg? then IsChain(pipe[1..], from, to)
    else pipe[0].batch.firstSeq == from && IsChain(pipe[1..], SeqAfterAll(from, pipe[0].batch.steps), to)
  }

  function OpenSeq(s: S.Sender): u32 {
    if s.batch.Some? then s.batch.value.firstSeq else s.nextSeq
  }

  function Transit(pipe: seq<Msg>): nat {
    if pipe == [] then 0 else (if pipe[0].StepsMsg? then Bytes(pipe[0].batch.steps) else 0) + Transit(pipe[1..])
  }

  function Pending(s: S.Sender): nat {
    if s.batch.Some? then Bytes(s.batch.value.steps) else 0
  }

  /** Only the last batch ends the transaction. */
  predicate EndsOnce(w: World) {
    && (forall i, j | 0 <= i < j < |w.pipe| && w.pipe[i].StepsMsg? && w.pipe[j].StepsMsg? :: !w.pipe[i].batch.IsEnd())
    && (forall m | m in w.pipe && m.StepsMsg? && m.batch.IsEnd() :: w.sender.ended && w.sender.batch.None?)
    && (w.runner.ledger.ended ==> w.sender.ended && w.sender.batch.None? && forall m | m in w.pipe :: !m.StepsMsg?)
  }

  /** All bytes the client has accepted: consumed, in the ring, on their way and pending. */
  function Total(w: World): nat {
    w.consumed + Bytes(w.runner.ledger.queue) + Transit(w.pipe) + Pending(w.sender)
  }

  /** Those not credited are never more than the window. */
  predicate CreditOk(w: World) {
    && w.credited <= w.consumed && Total(w) - w.credited <= w.sender.window
    && w.sender.window <= w.runner.window && w.sender.window <= RELAY_WINDOW_MAX
    && w.runner.ledger.consumed == w.consumed % WORD
    && w.sender.consumed == w.credited % WORD
    && w.sender.sent == Total(w) % WORD
  }

  predicate ReportsOk(w: World) {
    && |w.marks| == |w.reports|
    && (forall i | 0 <= i < |w.marks| :: w.reports[i].consumed == w.marks[i] % WORD && w.credited <= w.marks[i] <= w.consumed)
    && (forall i, j | 0 <= i < j < |w.marks| :: w.marks[i] <= w.marks[j])
  }

  predicate Inv(w: World) {
    && RunnerOk(w.runner) && S.SenderOk(w.sender) && PipeOk(w)
    && w.sender.txnId == w.runner.session.txnId
    && (w.runner.active ==>
        && IsChain(w.pipe, w.runner.ledger.nextSeq, OpenSeq(w.sender))
        && EndsOnce(w) && CreditOk(w) && ReportsOk(w))
  }

  // ---------- sums and chains ----------

  lemma {:induction false} PipeGrows(pipe: seq<Msg>, m: Msg, from: u32, to: u32)
    ensures Transit(pipe + [m]) == Transit(pipe) + if m.StepsMsg? then Bytes(m.batch.steps) else 0
    ensures IsChain(pipe, from, to) && (m.StepsMsg? ==> m.batch.firstSeq == to) ==>
      IsChain(pipe + [m], from, if m.StepsMsg? then SeqAfterAll(to, m.batch.steps) else to)
    decreases |pipe|
  {
    if pipe == [] {
      assert pipe + [m] == [m];
      assert [m][1..] == [];
    } else {
      assert (pipe + [m])[1..] == pipe[1..] + [m];
      PipeGrows(pipe[1..], m, if pipe[0].StepsMsg? then SeqAfterAll(from, pipe[0].batch.steps) else from, to);
    }
  }

  lemma {:induction false} SeqFromFront(number: u32, steps: seq<TxnStep>)
    requires steps != []
    ensures SeqAfterAll(number, steps) == SeqAfterAll(SeqAfter(number, steps[0]), steps[1..])
    decreases |steps|
  {
    if |steps| == 1 {
      assert steps[..0] == [] && steps[1..] == [];
    } else {
      var less := steps[..|steps| - 1];
      SeqFromFront(number, less);
      assert steps[1..][..|steps| - 2] == less[1..];
    }
  }

  lemma {:induction false} BytesFromEnd(queue: seq<TxnStep>, k: nat)
    requires k <= |queue|
    ensures Bytes(queue[k..]) <= Bytes(queue)
    decreases |queue|
  {
    if k > 0 {
      assert queue[k..] == queue[1..][k - 1..];
      BytesFromEnd(queue[1..], k - 1);
    }
  }

  // ---------- a batch reaches the ring ----------

  lemma CarriedKeeps(s: TxnStep)
    ensures RecordSize(Carried(s)) == RecordSize(s) && Carried(s).isContinued == s.isContinued
    ensures IsStepValid(s) ==> IsStepValid(Carried(s))
  {
  }

  lemma {:induction false} CarriedAllKeeps(steps: seq<TxnStep>, number: u32)
    ensures Bytes(CarriedAll(steps)) == Bytes(steps) && SeqAfterAll(number, CarriedAll(steps)) == SeqAfterAll(number, steps)
    decreases |steps|
  {
    if steps != [] {
      CarriedKeeps(steps[0]);
      CarriedAllKeeps(steps[1..], SeqAfter(number, steps[0]));
      assert CarriedAll(steps)[1..] == CarriedAll(steps[1..]);
      SeqFromFront(number, steps);
      SeqFromFront(number, CarriedAll(steps));
    }
  }

  /** A push whose bytes fit is refused only for a record the agent does not accept. */
  predicate Lands(d: Definitions, l: Ledger, steps: seq<TxnStep>, number: u32, p: Pushed) {
    match p
    case Refused(_, reason, _) => reason == InvalidStep && exists s | s in steps :: !AcceptsRecord(d, s)
    case Queued(next, n) =>
      && next == l.(queue := next.queue, pushed := next.pushed)
      && next.queue == l.queue + steps && Bytes(next.queue) == Bytes(l.queue) + Bytes(steps)
      && n == SeqAfterAll(number, steps)
  }

  lemma LandsAfterFirst(d: Definitions, l: Ledger, steps: seq<TxnStep>, number: u32, p: Pushed)
    requires steps != [] && Lands(d, Queue(l, steps[0]), steps[1..], SeqAfter(number, steps[0]), p)
    ensures Lands(d, l, steps, number, p)
  {
    QueueCounts(l.queue, steps[0]);
    SeqFromFront(number, steps);
    assert l.queue + [steps[0]] + steps[1..] == l.queue + steps;
  }

  lemma FirstFits(window: u32, d: Definitions, l: Ledger, steps: seq<TxnStep>, number: u32)
    requires steps != [] && LedgerOk(window, d, l.(nextSeq := number)) && Bytes(l.queue) + Bytes(steps) <= window
    ensures HasRoom(window, l, RecordSize(steps[0]))
  {
    RoomIsReal(window, d, l.(nextSeq := number), RecordSize(steps[0]));
  }

  lemma FirstKept(window: u32, d: Definitions, l: Ledger, first: TxnStep, number: u32)
    requires LedgerOk(window, d, l.(nextSeq := number)) && HasRoom(window, l, RecordSize(first)) && AcceptsRecord(d, first)
    ensures LedgerOk(window, d, Queue(l, first).(nextSeq := SeqAfter(number, first)))
  {
    var numbered, next := l.(nextSeq := number), SeqAfter(number, first);
    QueueKeeps(window, d, numbered, first);
    assert Queue(l, first).(nextSeq := next) == Queue(numbered, first).(nextSeq := next);
  }

  lemma FirstQueued(window: u32, d: Definitions, l: Ledger, steps: seq<TxnStep>, number: u32)
    requires steps != [] && LedgerOk(window, d, l.(nextSeq := number)) && Bytes(l.queue) + Bytes(steps) <= window
    ensures HasRoom(window, l, RecordSize(steps[0]))
    ensures AcceptsRecord(d, steps[0]) ==>
      && LedgerOk(window, d, Queue(l, steps[0]).(nextSeq := SeqAfter(number, steps[0])))
      && Bytes(Queue(l, steps[0]).queue) + Bytes(steps[1..]) <= window
  {
    FirstFits(window, d, l, steps, number);
    if AcceptsRecord(d, steps[0]) {
      FirstKept(window, d, l, steps[0], number);
      QueueCounts(l.queue, steps[0]);
    }
  }

  lemma ReadFirst(records: seq<u8>, steps: seq<TxnStep>)
    requires steps != [] && ParseRecords(records, |steps|) == Some(steps)
    ensures Decode(records) == Some(Taken(steps[0], RecordSize(steps[0])))
    ensures ParseRecords(records[RecordSize(steps[0])..], |steps| - 1) == Some(steps[1..])
  {
  }

  lemma PushFirst(window: u32, d: Definitions, l: Ledger, records: seq<u8>, count: nat, number: u32, first: TxnStep)
    requires count > 0 && Decode(records) == Some(Taken(first, RecordSize(first))) && HasRoom(window, l, RecordSize(first))
    ensures PushRecords(window, d, l, records, count, number) ==
      if !AcceptsRecord(d, first) then Refused(l, InvalidStep, number)
      else PushRecords(window, d, Queue(l, first), records[RecordSize(first)..], count - 1, SeqAfter(number, first))
  {
  }

  lemma {:induction false} PushLands(
    window: u32, d: Definitions, l: Ledger, records: seq<u8>, steps: seq<TxnStep>, count: nat, number: u32, p: Pushed)
    requires LedgerOk(window, d, l.(nextSeq := number)) && Bytes(l.queue) + Bytes(steps) <= window
    requires count == |steps| && ParseRecords(records, count) == Some(steps)
    requires p == PushRecords(window, d, l, records, count, number)
    ensures Lands(d, l, steps, number, p)
    decreases count
  {
    if count == 0 {
      assert l.queue + steps == l.queue;
    } else {
      var first, rest := steps[0], steps[1..];
      ReadFirst(records, steps);
      FirstQueued(window, d, l, steps, number);
      PushFirst(window, d, l, records, count, number, first);
      if AcceptsRecord(d, first) {
        PushLands(window, d, Queue(l, first), records[RecordSize(first)..], rest, count - 1, SeqAfter(number, first), p);
        LandsAfterFirst(d, l, steps, number, p);
      } else {
        assert first in steps;
      }
    }
  }

  /** The body the client encoded is the push the agent makes. */
  lemma ArriveIsPush(s: Runner, b: Batch)
    requires RunnerOk(s) && WireOk(s.session.txnId, b)
    ensures Arrive(s, EncodeBatch(b)) == PushSteps(s, b.txnId, b.firstSeq, b.IsEnd(), EncodeAll(b.steps), |b.steps|)
  {
    BatchRoundTrip(b);
    HeadReadsBack(b.channel, |b.steps|, b.txnId, b.firstSeq, b.flags, EncodeAll(b.steps));
  }

  /** A batch that continues the agent's numbers and fits its ring is queued whole, or holds a record it does not accept. */
  predicate Landed(s: Runner, b: Batch, r: Result) {
    if r.next.active then
      && r.outputs == [] && r.next == s.(ledger := r.next.ledger)
      && r.next.ledger == s.ledger.(queue := s.ledger.queue + CarriedAll(b.steps), pushed := r.next.ledger.pushed,
                                    nextSeq := SeqAfterAll(s.ledger.nextSeq, b.steps), ended := b.IsEnd())
      && Bytes(r.next.ledger.queue) == Bytes(s.ledger.queue) + Bytes(b.steps)
    else
      && |r.outputs| == 1 && r.outputs[0].Finished? && r.outputs[0].status.reason == InvalidStep
      && exists step | step in CarriedAll(b.steps) :: !AcceptsRecord(s.defs, step)
  }

  lemma PushOfOutcome(s: Runner, b: Batch, records: seq<u8>, p: Pushed)
    requires Running(s) && b.txnId == s.session.txnId && |b.steps| <= BATCH_COUNT_MAX
    requires p == PushOutcome(s, b.firstSeq, records, |b.steps|)
    requires Lands(s.defs, s.ledger, CarriedAll(b.steps), s.ledger.nextSeq, p)
    ensures Landed(s, b, PushSteps(s, b.txnId, b.firstSeq, b.IsEnd(), records, |b.steps|))
  {
    CarriedAllKeeps(b.steps, s.ledger.nextSeq);
  }

  lemma BatchLands(s: Runner, b: Batch)
    requires Running(s) && WireOk(s.session.txnId, b)
    requires b.firstSeq == s.ledger.nextSeq && !s.ledger.ended
    requires Bytes(s.ledger.queue) + Bytes(b.steps) <= s.window
    ensures Landed(s, b, Arrive(s, EncodeBatch(b)))
  {
    var records := EncodeAll(b.steps);
    var p := PushOutcome(s, b.firstSeq, records, |b.steps|);
    BatchParsesBack(b.steps);
    CarriedAllKeeps(b.steps, s.ledger.nextSeq);
    assert s.ledger.(nextSeq := b.firstSeq) == s.ledger;
    PushLands(s.window, s.defs, s.ledger, records, CarriedAll(b.steps), |b.steps|, b.firstSeq, p);
    PushOfOutcome(s, b, records, p);
    ArriveIsPush(s, b);
  }

  // ---------- every action keeps the invariant ----------

  lemma OfferKeeps(w: World, step: TxnStep)
    requires Inv(w)
    ensures Inv(Offered(w, step))
  {
    var s := w.sender;
    S.OfferKeeps(s, step);
    if w.runner.active {
      OfferCredit(w, step);
    }
  }

  lemma OfferCredit(w: World, step: TxnStep)
    requires Inv(w) && w.runner.active
    ensures CreditOk(Offered(w, step))
  {
    var s := w.sender;
    WrapTotals(Total(w), w.credited);
    assert S.BytesInFlight(s) == Total(w) - w.credited;
    S.OfferStaysInWindow(s, step);
    if S.OfferResult(s, step) == S.Accepted {
      QueueCounts(S.Opened(s).batch.value.steps, step);
      assert Total(Offered(w, step)) == Total(w) + RecordSize(step);
      WrapSum(Total(w), RecordSize(step));
    } else {
      assert Total(Offered(w, step)) == Total(w);
    }
  }

  /** A difference of wrapped totals is the difference, while it is below the wrap. */
  lemma WrapTotals(total: int, part: int)
    requires 0 <= total - part < WORD
    ensures (total % WORD - part % WORD) % WORD == total - part
  {
    WrapDifference(total, part % WORD, 0);
    ModShift(total - part, part / WORD);
  }

  lemma EndKeeps(w: World)
    requires Inv(w)
    ensures Inv(Ended(w))
  {
    S.EndKeeps(w.sender);
  }

  lemma FlushKeeps(w: World)
    requires Inv(w)
    ensures Inv(Flushed(w))
  {
    if w.sender.batch.Some? {
      var b := w.sender.batch.value;
      PipeGrows(w.pipe, StepsMsg(b), w.runner.ledger.nextSeq, OpenSeq(w.sender));
      if w.runner.active {
        FlushEndsOnce(w);
      }
    }
  }

  lemma FlushEndsOnce(w: World)
    requires Inv(w) && w.runner.active && w.sender.batch.Some?
    ensures EndsOnce(Flushed(w))
  {
  }

  lemma DefineKeeps(w: World, m: Msg)
    requires Inv(w)
    ensures Inv(Defined(w, m))
  {
    PipeGrows(w.pipe, m, w.runner.ledger.nextSeq, OpenSeq(w.sender));
  }

  lemma ReportedCredit(w: World)
    requires Inv(w) && w.runner.active
    ensures CreditOk(Reported(w)) && ReportsOk(Reported(w))
  {
    assert Total(Reported(w)) == Total(w);
  }

  lemma ReportedKeeps(w: World)
    requires Inv(w)
    ensures Inv(Reported(w))
  {
    if w.runner.active {
      ReportedCredit(w);
    }
  }

  lemma RelayKeeps(w: World)
    requires Inv(w)
    ensures Inv(Relayed(w))
  {
  }

  lemma LostKeeps(w: World)
    requires Inv(w)
    ensures Inv(Lost(w))
  {
  }

  /** The next batch to reach the agent continues its numbers, fits its ring and finds the transaction open. */
  lemma NextBatchFits(w: World)
    requires Inv(w) && w.runner.active && CanDeliver(w) && w.pipe[0].StepsMsg?
    ensures var b := w.pipe[0].batch;
      && WireOk(w.runner.session.txnId, b) && b.firstSeq == w.runner.ledger.nextSeq && !w.runner.ledger.ended
      && Bytes(w.runner.ledger.queue) + Bytes(b.steps) <= w.runner.window
  {
    assert w.pipe[0] in w.pipe;
  }

  predicate BatchDelivered(w: World, r: Result) {
    && Inv(w) && w.runner.active && CanDeliver(w) && w.pipe[0].StepsMsg?
    && Follows(w.runner, r) && Landed(w.runner, w.pipe[0].batch, r)
  }

  lemma BatchEndsOnce(w: World, r: Result)
    requires BatchDelivered(w, r) && r.next.active
    ensures EndsOnce(Delivered(w, r))
  {
    var b := w.pipe[0].batch;
    if b.IsEnd() {
      forall m | m in w.pipe[1..] ensures !m.StepsMsg? {
        var j :| 1 <= j < |w.pipe| && w.pipe[j] == m;
      }
      assert w.pipe[0] in w.pipe;
    }
    NextBatchFits(w);
  }

  lemma BatchCredit(w: World, r: Result)
    requires BatchDelivered(w, r) && r.next.active
    ensures CreditOk(Delivered(w, r))
  {
    assert Total(Delivered(w, r)) == Total(w);
  }

  lemma BatchKeeps(w: World, r: Result)
    requires BatchDelivered(w, r)
    ensures Inv(Delivered(w, r))
  {
    if r.next.active {
      NextBatchFits(w);
      BatchEndsOnce(w, r);
      BatchCredit(w, r);
    }
  }

  /** The agent's ledger is untouched by a definition it accepts. */
  predicate Defines(s: Runner, r: Result) {
    && Follows(s, r) && (r.next.active ==> r.next.ledger == s.ledger)
    && forall o | o in r.outputs :: !o.Progress? && (o.Finished? ==> o.status.reason != Overrun)
  }

  lemma DefinitionKeeps(w: World, r: Result)
    requires Inv(w) && w.runner.active && CanDeliver(w) && !w.pipe[0].StepsMsg? && Defines(w.runner, r)
    ensures Inv(Delivered(w, r))
  {
  }

  lemma {:induction false} ReportsTellConsumed(outputs: seq<Output>, consumed: u32)
    requires forall o | o in outputs :: o.Progress? ==> o.consumed == consumed
    ensures forall p | p in ReportsIn(outputs) :: p.consumed == consumed
    decreases |outputs|
  {
    if outputs != [] {
      ReportsTellConsumed(outputs[1..], consumed);
    }
  }

  lemma CounterFollows(pushed: u32, c: u32, q: nat, c': u32, q': nat, total: nat)
    requires c == total % WORD && pushed == (c + q) % WORD == (c' + q') % WORD
    ensures c' == (total + q - q') % WORD
  {
    var i, k, j := total / WORD, (c + q) / WORD, (c' + q') / WORD;
    assert total + q - q' == c' + (i + k - j) * WORD;
    ModShift(c', i + k - j);
  }

  /** What leaves the ring is what the wrapping counter adds. */
  lemma ConsumedFollows(w: World, r: Result)
    requires Inv(w) && w.runner.active && r.next.active && RunnerOk(r.next)
    requires r.next.window == w.runner.window && Drains(w.runner.ledger, r.next.ledger)
    ensures Bytes(r.next.ledger.queue) <= Bytes(w.runner.ledger.queue)
    ensures r.next.ledger.consumed ==
      (w.consumed + Bytes(w.runner.ledger.queue) - Bytes(r.next.ledger.queue)) % WORD
  {
    var l, n := w.runner.ledger, r.next.ledger;
    BytesFromEnd(l.queue, |l.queue| - |n.queue|);
    CounterFollows(l.pushed, l.consumed, Bytes(l.queue), n.consumed, Bytes(n.queue), w.consumed);
  }

  lemma MovesReports(w: World, r: Result)
    requires ReportsOk(w) && ReportsTruly(r) && r.next.active
    requires var n := AgentMoves(w, r); r.next.ledger.consumed == n.consumed % WORD && w.credited <= w.consumed <= n.consumed
    ensures ReportsOk(AgentMoves(w, r))
  {
    var n, more := AgentMoves(w, r), ReportsIn(r.outputs);
    ReportsTellConsumed(r.outputs, r.next.ledger.consumed);
    forall i | 0 <= i < |n.marks|
      ensures n.reports[i].consumed == n.marks[i] % WORD && n.credited <= n.marks[i] <= n.consumed
    {
      if i >= |w.marks| {
        assert n.reports[i] == more[i - |w.marks|];
      }
    }
  }

  lemma MovesKeeps(w: World, r: Result)
    requires Inv(w) && w.runner.active && Executes(w.runner, r) && ReportsTruly(r)
    ensures Inv(AgentMoves(w, r))
  {
    if r.next.active {
      ConsumedFollows(w, r);
      MovesReports(w, r);
    }
  }

  // ---------- every run ----------

  /** What the agent's part of an action comes to while its transaction runs. */
  predicate Sound(w: World, a: Action, r: Result) {
    match a
    case Deliver =>
      CanDeliver(w) ==> if w.pipe[0].StepsMsg? then Landed(w.runner, w.pipe[0].batch, r) else Defines(w.runner, r)
    case AgentTick(_, _) => Executes(w.runner, r) && ReportsTruly(r)
    case AgentFrame(_, _, _) => Executes(w.runner, r) && ReportsTruly(r)
    case AgentAbort(_) => Executes(w.runner, r) && ReportsTruly(r)
    case _ => r.outputs == []
  }

  lemma DefinitionsDefine(s: Runner, m: Msg)
    requires Running(s) && !m.StepsMsg?
    ensures Defines(s, Receive(s, m))
  {
  }

  lemma DeliveryIsSound(w: World)
    requires Inv(w) && w.runner.active
    ensures Sound(w, Deliver, AgentResult(w, Deliver))
  {
    if CanDeliver(w) {
      if w.pipe[0].StepsMsg? {
        NextBatchFits(w);
        var b := w.pipe[0].batch.(channel := w.runner.session.channel);
        BatchLands(w.runner, b);
        assert CarriedAll(b.steps) == CarriedAll(w.pipe[0].batch.steps);
      } else {
        DefinitionsDefine(w.runner, w.pipe[0]);
      }
    }
  }

  lemma ActionIsSound(w: World, a: Action)
    requires Inv(w) && w.runner.active
    ensures Sound(w, a, AgentResult(w, a))
  {
    if a.Deliver? {
      DeliveryIsSound(w);
    }
  }

  lemma DeliverKeeps(w: World, r: Result)
    requires Inv(w) && w.runner.active && CanDeliver(w) && Sound(w, Deliver, r) && Follows(w.runner, r)
    ensures Inv(Delivered(w, r))
  {
    if w.pipe[0].StepsMsg? {
      BatchKeeps(w, r);
    } else {
      DefinitionKeeps(w, r);
    }
  }

  predicate IsAgentAction(a: Action) {
    a.AgentTick? || a.AgentFrame? || a.AgentAbort?
  }

  /** What the agent does by itself, as the function it is; `kept` is anything said of it. */
  lemma AgentActs(kept: (Runner, Result) -> bool, w: World, a: Action)
    requires RunnerOk(w.runner) && PipeOk(w) && IsAgentAction(a)
    requires a.AgentTick? ==> kept(w.runner, Tick(w.runner, a.now, a.answers))
    requires a.AgentFrame? ==> kept(w.runner, OnFrame(w.runner, a.interfaceIndex, a.frame, a.ok))
    requires a.AgentAbort? ==> kept(w.runner, Abort(w.runner, a.txnId))
    ensures kept(w.runner, AgentResult(w, a))
  {
  }

  lemma AgentKeeps(w: World, a: Action)
    requires Inv(w) && w.runner.active && IsAgentAction(a)
    ensures Inv(Next(w, a))
  {
    ActionIsSound(w, a);
    MovesKeeps(w, AgentResult(w, a));
  }

  predicate IsClientAction(a: Action) {
    a.Offer? || a.EndTransaction? || a.Flush? || a.Define?
  }

  lemma ClientKeeps(w: World, a: Action)
    requires Inv(w) && w.runner.active && IsClientAction(a)
    ensures Inv(Next(w, a))
  {
    match a
    case Offer(step) => OfferKeeps(w, step);
    case EndTransaction => EndKeeps(w);
    case Flush => FlushKeeps(w);
    case Define(msg) => DefineKeeps(w, msg);
  }

  lemma DeliveryKeeps(w: World)
    requires Inv(w) && w.runner.active
    ensures Inv(Next(w, Deliver))
  {
    if CanDeliver(w) {
      DeliveryIsSound(w);
      DeliverKeeps(w, AgentResult(w, Deliver));
    }
  }

  lemma NetworkKeeps(w: World, a: Action)
    requires Inv(w) && w.runner.active && !IsClientAction(a) && !IsAgentAction(a)
    ensures Inv(Next(w, a))
  {
    match a
    case Relay => RelayKeeps(w);
    case Deliver => DeliveryKeeps(w);
    case DeliverReport => ReportedKeeps(w);
    case LoseReport => LostKeeps(w);
  }

  /** Nothing is owed to a transaction that is over. */
  lemma OverClientKeeps(w: World, a: Action)
    requires Inv(w) && !w.runner.active && IsClientAction(a)
    ensures Inv(Next(w, a))
  {
    match a
    case Offer(step) => OfferKeeps(w, step);
    case EndTransaction => EndKeeps(w);
    case Flush => FlushKeeps(w);
    case Define(msg) => DefineKeeps(w, msg);
  }

  lemma OverKeeps(w: World, a: Action)
    requires Inv(w) && !w.runner.active
    ensures Inv(Next(w, a))
  {
    if IsClientAction(a) {
      OverClientKeeps(w, a);
    }
  }

  lemma ActionKeeps(w: World, a: Action)
    requires Inv(w)
    ensures Inv(Next(w, a))
  {
    if !w.runner.active {
      OverKeeps(w, a);
    } else if IsAgentAction(a) {
      AgentKeeps(w, a);
    } else if IsClientAction(a) {
      ClientKeeps(w, a);
    } else {
      NetworkKeeps(w, a);
    }
  }

  function Mover(): (World, Action) -> World {
    (w: World, a: Action) => if Inv(w) then Next(w, a) else w
  }

  function Play(move: (World, Action) -> World, w: World, actions: seq<Action>): World
    decreases |actions|
  {
    if actions == [] then w else Play(move, move(w, actions[0]), actions[1..])
  }

  lemma {:induction false} PlayKeeps(move: (World, Action) -> World, kept: World -> bool, w: World, actions: seq<Action>)
    requires kept(w) && forall x, a | kept(x) :: kept(move(x, a))
    ensures kept(Play(move, w, actions))
    decreases |actions|
  {
    if actions != [] {
      PlayKeeps(move, kept, move(w, actions[0]), actions[1..]);
    }
  }

  lemma RunKeeps(w: World, actions: seq<Action>)
    requires Inv(w)
    ensures Inv(Play(Mover(), w, actions))
  {
    forall x, a | Inv(x) ensures Inv(Mover()(x, a)) {
      ActionKeeps(x, a);
    }
    PlayKeeps(Mover(), Inv, w, actions);
  }

  /** The transaction has begun: the agent's acknowledgement reached the client through the hub, its window clamped. */
  function Started(
    s: Runner, agentChannel: u8, clientChannel: u8, idleTimeoutMs: u32, k: Keepalive, interfaceIndex: u8, now: nat): World
    requires RunnerOk(s)
  {
    var ack := BeginAck(s, agentChannel, k);
    var window := Min(ack.window, RELAY_WINDOW_MAX);
    World(S.OnBeginAck(S.Begin(clientChannel), clientChannel, 0, ack.txnId, window), [], 0,
          Begin(s, agentChannel, idleTimeoutMs, k, interfaceIndex, now), [], 0, 0, [])
  }

  lemma StartedOk(
    s: Runner, agentChannel: u8, clientChannel: u8, idleTimeoutMs: u32, k: Keepalive, interfaceIndex: u8, now: nat)
    requires RunnerOk(s) && BeginAck(s, agentChannel, k).status == BeginOk
    ensures Inv(Started(s, agentChannel, clientChannel, idleTimeoutMs, k, interfaceIndex, now))
  {
  }

  /**
    Over any run of client, hub and agent, whatever the delays and losses of
    progress reports and the wrapping of the counters: the agent never aborts
    with OVERRUN, and refuses a batch only for a record it does not accept,
    never for its first number or for coming after the end.
   */
  lemma CreditIsNeverExceeded(
    s: Runner, agentChannel: u8, clientChannel: u8, idleTimeoutMs: u32, k: Keepalive, interfaceIndex: u8, now: nat,
    actions: seq<Action>, a: Action)
    requires RunnerOk(s) && BeginAck(s, agentChannel, k).status == BeginOk
    ensures var start := Started(s, agentChannel, clientChannel, idleTimeoutMs, k, interfaceIndex, now);
      var w := Play(Mover(), start, actions);
      && Inv(w)
      && (w.runner.active ==> Sound(w, a, AgentResult(w, a)) && NeverOverruns(AgentResult(w, a)))
  {
    var start := Started(s, agentChannel, clientChannel, idleTimeoutMs, k, interfaceIndex, now);
    StartedOk(s, agentChannel, clientChannel, idleTimeoutMs, k, interfaceIndex, now);
    RunKeeps(start, actions);
    var w := Play(Mover(), start, actions);
    if w.runner.active {
      ActionIsSound(w, a);
      SoundNeverOverruns(w, a, AgentResult(w, a));
    }
  }

  predicate NeverOverruns(r: Result) {
    forall o | o in r.outputs :: o.Finished? ==> o.status.reason != Overrun
  }

  lemma SoundNeverOverruns(w: World, a: Action, r: Result)
    requires Sound(w, a, r) && (a.Deliver? && !CanDeliver(w) ==> r.outputs == [])
    ensures NeverOverruns(r)
  {
  }
}
