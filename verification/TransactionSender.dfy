/** The client side of one transaction (src/client/transaction_sender.c), as functions on its state. */
module TransactionSender {
  import opened Frames
  import opened ByteStrings
  import opened StepCodec

  datatype SenderState = Idle | Beginning | Running | Finished

  datatype Offered = Accepted | FlushNeeded | NoCredit | Rejected

  /** TransactionSender; `batch` is the open batch. */
  datatype Sender = Sender(
    state: SenderState, channel: u8, txnId: u16, beginStatus: u8, ended: bool,
    window: u32, sent: u32, consumed: u32, completed: u32, nextSeq: u32,
    messageOpen: bool, batch: Option<Batch>)

  const RESET := Sender(Idle, 0, 0, 0, false, 0, 0, 0, 0, 0, false, None)

  function Begin(channel: u8): Sender {
    RESET.(state := Beginning, channel := channel)
  }

  function OnBeginAck(s: Sender, channel: u8, status: u8, txnId: u16, window: u32): Sender {
    if s.state != Beginning || channel != s.channel then s
    else if status != 0 then s.(beginStatus := status, state := Finished)
    else s.(beginStatus := status, state := Running, txnId := txnId, window := window)
  }

  function OnProgress(s: Sender, channel: u8, txnId: u16, completed: u32, consumed: u32): Sender {
    if s.state != Running || channel != s.channel || txnId != s.txnId then s
    else s.(consumed := consumed, completed := completed)
  }

  function OnStatus(s: Sender, channel: u8, txnId: u16, completed: u32): Sender {
    if channel != s.channel || (s.state == Running && txnId != s.txnId) then s
    else if s.state != Running && s.state != Beginning then s
    else s.(completed := completed, state := Finished)
  }

  function BytesInFlight(s: Sender): u32 {
    (s.sent - s.consumed) % WORD
  }

  function Opened(s: Sender): (o: Sender)
    ensures o.batch.Some?
  {
    if s.batch.Some? then s else s.(batch := Some(Batch(s.channel, s.txnId, s.nextSeq, 0, [])))
  }

  /** The writer has room for the record. */
  predicate Fits(b: Batch, step: TxnStep) {
    |b.steps| < BATCH_COUNT_MAX && |EncodeAll(b.steps)| + RecordSize(step) <= BATCH_RECORD_BYTES_MAX
  }

  function Take(s: Sender, step: TxnStep): Sender
    requires s.batch.Some?
  {
    s.(batch := Some(s.batch.value.(steps := s.batch.value.steps + [step])),
       sent := (s.sent + RecordSize(step)) % WORD,
       messageOpen := step.isContinued,
       nextSeq := SeqAfter(s.nextSeq, step))
  }

  function OfferResult(s: Sender, step: TxnStep): Offered {
    if s.state != Running || s.ended || !IsStepValid(step) then Rejected
    else if (BytesInFlight(s) + RecordSize(step)) % WORD > s.window then NoCredit
    else if !Fits(Opened(s).batch.value, step) then FlushNeeded
    else Accepted
  }

  function Offer(s: Sender, step: TxnStep): Sender {
    match OfferResult(s, step)
    case Rejected => s
    case NoCredit => s
    case FlushNeeded => Opened(s)
    case Accepted => Take(Opened(s), step)
  }

  predicate CanEnd(s: Sender) {
    s.state == Running && !s.ended && !s.messageOpen
  }

  function MarkedEnd(b: Batch): Batch {
    if b.IsEnd() then b else b.(flags := (b.flags + BATCH_FLAG_END) % 0x100)
  }

  function End(s: Sender): Sender {
    if !CanEnd(s) then s
    else Opened(s).(batch := Some(MarkedEnd(Opened(s).batch.value)), ended := true)
  }

  function BatchSent(s: Sender): Sender {
    s.(batch := None)
  }

  // ---------- what every operation keeps ----------

  /** The open batch can always be put on the wire, and is numbered from the first step it holds. */
  predicate BatchOk(s: Sender, b: Batch) {
    && |b.steps| <= BATCH_COUNT_MAX && |EncodeAll(b.steps)| <= BATCH_RECORD_BYTES_MAX
    && (forall step | step in b.steps :: IsStepValid(step))
    && b.channel == s.channel && b.txnId == s.txnId
    && SeqAfterAll(b.firstSeq, b.steps) == s.nextSeq
    && b.flags == if s.ended then BATCH_FLAG_END else 0
  }

  predicate SenderOk(s: Sender) {
    s.batch.Some? ==> BatchOk(s, s.batch.value) && s.state != Idle && s.state != Beginning
  }

  lemma OpenedOk(s: Sender)
    requires SenderOk(s) && !s.ended && s.state == Running
    ensures SenderOk(Opened(s)) && BatchOk(s, Opened(s).batch.value)
  {
    ConcatEmpty(Records([]));
  }

  lemma OfferKeeps(s: Sender, step: TxnStep)
    requires SenderOk(s)
    ensures SenderOk(Offer(s, step))
  {
    if OfferResult(s, step) == FlushNeeded || OfferResult(s, step) == Accepted {
      OpenedOk(s);
    }
    if OfferResult(s, step) == Accepted {
      var b := Opened(s).batch.value;
      EncodeAllAppend(b.steps, step);
      SeqAfterPush(b.firstSeq, b.steps, step);
    }
  }

  lemma EndKeeps(s: Sender)
    requires SenderOk(s)
    ensures SenderOk(End(s))
  {
    if CanEnd(s) {
      OpenedOk(s);
    }
  }

  lemma FlightGrows(sent: u32, consumed: u32, n: nat)
    requires (sent - consumed) % WORD + n < WORD
    ensures ((sent + n) % WORD - consumed) % WORD == (sent - consumed) % WORD + n
  {
    WrapDifference(sent, consumed, n);
  }

  /** Within the window nothing is lost to wrap-around: an accepted step keeps the bytes in flight in the window. */
  lemma OfferStaysInWindow(s: Sender, step: TxnStep)
    requires s.window < WORD - RECORD_SIZE_MAX && BytesInFlight(s) <= s.window
    ensures BytesInFlight(Offer(s, step)) <= s.window
    ensures OfferResult(s, step) == Accepted ==> BytesInFlight(Offer(s, step)) == BytesInFlight(s) + RecordSize(step)
  {
    if OfferResult(s, step) == Accepted {
      FlightGrows(s.sent, s.consumed, RecordSize(step));
    }
  }

  /** A record fits every empty batch: after a flush the sender never asks for another. */
  lemma EmptyBatchFits(s: Sender, step: TxnStep)
    requires s.batch.None?
    ensures OfferResult(s, step) != FlushNeeded
  {
    ConcatEmpty(Records([]));
  }

  /** What a batch says is what the receiver reads. */
  lemma BatchReadsBack(s: Sender)
    requires SenderOk(s) && s.batch.Some?
    ensures var b := s.batch.value;
      DecodeBatch(EncodeBatch(b)) == Some(b.(steps := CarriedAll(b.steps)))
  {
    BatchRoundTrip(s.batch.value);
  }

  // ---------- the end of a transaction ----------

  /** A call of the sender other than the start of the next transaction. */
  datatype Call =
    | AckCall(channel: u8, status: u8, txnId: u16, window: u32)
    | ProgressCall(channel: u8, txnId: u16, completed: u32, consumed: u32)
    | StatusCall(channel: u8, txnId: u16, completed: u32)
    | OfferCall(step: TxnStep)
    | EndCall
    | SentCall

  function Called(s: Sender, call: Call): Sender {
    match call
    case AckCall(channel, status, txnId, window) => OnBeginAck(s, channel, status, txnId, window)
    case ProgressCall(channel, txnId, completed, consumed) => OnProgress(s, channel, txnId, completed, consumed)
    case StatusCall(channel, txnId, completed) => OnStatus(s, channel, txnId, completed)
    case OfferCall(step) => Offer(s, step)
    case EndCall => End(s)
    case SentCall => BatchSent(s)
  }

  function AllCalled(s: Sender, calls: seq<Call>): Sender {
    if calls == [] then s else Called(AllCalled(s, calls[..|calls| - 1]), calls[|calls| - 1])
  }

  /** The steps the sender took during the calls, in order. */
  function TakenSteps(s: Sender, calls: seq<Call>): seq<TxnStep> {
    if calls == [] then []
    else
      var before, call := calls[..|calls| - 1], calls[|calls| - 1];
      TakenSteps(s, before) +
      if call.OfferCall? && OfferResult(AllCalled(s, before), call.step) == Accepted then [call.step] else []
  }

  /** The call says that the sender's own transaction is over: its status, or the refusal to begin it. */
  predicate Finishes(s: Sender, call: Call) {
    || (call.AckCall? && s.state == Beginning && call.channel == s.channel && call.status != 0)
    || (call.StatusCall? && call.channel == s.channel
        && (s.state == Beginning || (s.state == Running && call.txnId == s.txnId)))
  }

  /**
    Once told that its transaction is over the sender keeps what it was told:
    whatever else is called, no step is taken, the transaction cannot end again and
    the batch left open can only be sent.
   */
  lemma {:induction false} OverForGood(s: Sender, call: Call, calls: seq<Call>)
    requires Finishes(s, call)
    ensures var told, over := Called(s, call), AllCalled(Called(s, call), calls);
      && over == told.(batch := over.batch) && (over.batch == s.batch || over.batch.None?)
      && over.state == Finished && over.sent == s.sent && over.nextSeq == s.nextSeq
      && over.completed == (if call.StatusCall? then call.completed else s.completed)
      && over.beginStatus == (if call.AckCall? then call.status else s.beginStatus)
      && TakenSteps(told, calls) == []
      && !CanEnd(over) && forall step :: OfferResult(over, step) == Rejected
  {
    if calls != [] {
      OverForGood(s, call, calls[..|calls| - 1]);
    }
  }

  lemma FinishedBy(s: Sender, call: Call)
    requires s.state != Idle
    ensures Called(s, call).state != Idle
    ensures Called(s, call).state == Finished <==> s.state == Finished || Finishes(s, call)
  {
  }

  /** One of the calls said so. */
  predicate ToldOver(s: Sender, calls: seq<Call>) {
    calls != [] &&
    var before := calls[..|calls| - 1];
    ToldOver(s, before) || Finishes(AllCalled(s, before), calls[|calls| - 1])
  }

  /** A transaction that was begun is over exactly when some call said so. */
  lemma {:induction false} OverExactly(s: Sender, calls: seq<Call>)
    requires s.state == Beginning || s.state == Running
    ensures AllCalled(s, calls).state != Idle
    ensures AllCalled(s, calls).state == Finished <==> ToldOver(s, calls)
  {
    if calls != [] {
      OverExactly(s, calls[..|calls| - 1]);
      FinishedBy(AllCalled(s, calls[..|calls| - 1]), calls[|calls| - 1]);
    }
  }
}
