/**
  The batch writer (src/protocol/txn_steps_message.c), the sender's object
  (src/client/transaction_sender.c) and the client's send loop
  (src/client/client.c), each proved to follow the functions of module
  TransactionSender.
 */
module SenderEngine {
  import opened Frames
  import opened ByteStrings
  import opened StepCodec
  import opened AgentRules
  import opened TransactionSender
  import Spec = TransactionSender

  /** Fills a buffer in place with one TXN_STEPS body; `batch` is what it holds. */
  class StepsWriter {
    const buffer: array<u8>
    var recordsSize: nat
    var stepCount: nat
    ghost var batch: Batch

    ghost predicate Valid()
      reads this, buffer
    {
      && stepCount == |batch.steps| <= BATCH_COUNT_MAX
      && recordsSize <= BATCH_RECORD_BYTES_MAX
      && BATCH_FIXED_SIZE + recordsSize <= buffer.Length
      && buffer[0] == batch.channel
      && buffer[2..BATCH_FIXED_SIZE] == HeadTail(batch)
      && buffer[BATCH_FIXED_SIZE..BATCH_FIXED_SIZE + recordsSize] == EncodeAll(batch.steps)
    }

    static function HeadTail(b: Batch): seq<u8> {
      WriteU16(b.txnId) + WriteU32(b.firstSeq) + [b.flags, 0, 0, 0]
    }

    constructor (size: nat)
      ensures fresh(buffer) && buffer.Length == size
    {
      buffer := new u8[size](_ => 0);
      recordsSize, stepCount := 0, 0;
    }

    method Write(at: nat, data: seq<u8>)
      requires at + |data| <= buffer.Length
      modifies buffer
      ensures buffer[at..at + |data|] == data
      ensures forall i | 0 <= i < buffer.Length && !(at <= i < at + |data|) :: buffer[i] == old(buffer[i])
    {
      forall i | 0 <= i < |data| {
        buffer[at + i] := data[i];
      }
    }

    method Init(channel: u8, txnId: u16, firstSeq: u32, flags: u8) returns (ok: bool)
      modifies this, buffer
      ensures ok <==> BATCH_FIXED_SIZE <= buffer.Length
      ensures ok ==> Valid() && batch == Batch(channel, txnId, firstSeq, flags, [])
    {
      if buffer.Length < BATCH_FIXED_SIZE {
        return false;
      }
      recordsSize, stepCount := 0, 0;
      batch := Batch(channel, txnId, firstSeq, flags, []);
      Write(0, Zeros(BATCH_FIXED_SIZE));
      buffer[0] := channel;
      Write(2, HeadTail(Batch(channel, txnId, firstSeq, flags, [])));
      ConcatEmpty(Records([]));
      return true;
    }

    function Room(): nat
      reads this
      requires recordsSize <= BATCH_RECORD_BYTES_MAX && BATCH_FIXED_SIZE + recordsSize <= buffer.Length
    {
      Min(buffer.Length - BATCH_FIXED_SIZE - recordsSize, BATCH_RECORD_BYTES_MAX - recordsSize)
    }

    /** The record is taken exactly when it is valid, fits and is not one too many; else nothing changes. */
    method Append(step: TxnStep) returns (ok: bool)
      requires Valid()
      modifies this, buffer
      ensures Valid()
      ensures ok <==>
        && old(|batch.steps|) < BATCH_COUNT_MAX && IsStepValid(step)
        && |EncodeAll(old(batch.steps))| + RecordSize(step) <= Min(buffer.Length - BATCH_FIXED_SIZE, BATCH_RECORD_BYTES_MAX)
      ensures batch == if ok then old(batch).(steps := old(batch.steps) + [step]) else old(batch)
    {
      if stepCount == BATCH_COUNT_MAX {
        return false;
      }
      var size := RecordSize(step);
      if !IsStepValid(step) || Room() < size {
        return false;
      }
      Take(step);
      return true;
    }

    method Take(step: TxnStep)
      requires Valid() && |batch.steps| < BATCH_COUNT_MAX && Room() >= RecordSize(step)
      modifies this, buffer
      ensures Valid() && batch == old(batch).(steps := old(batch.steps) + [step])
    {
      ghost var from := BATCH_FIXED_SIZE + recordsSize;
      Write(BATCH_FIXED_SIZE + recordsSize, Encode(step));
      EncodeAllAppend(batch.steps, step);
      assert buffer[2..BATCH_FIXED_SIZE] == old(buffer[2..BATCH_FIXED_SIZE]);
      assert buffer[BATCH_FIXED_SIZE..from] == old(buffer[BATCH_FIXED_SIZE..from]);
      recordsSize, stepCount := recordsSize + RecordSize(step), stepCount + 1;
      batch := batch.(steps := batch.steps + [step]);
      assert buffer[BATCH_FIXED_SIZE..BATCH_FIXED_SIZE + recordsSize]
          == buffer[BATCH_FIXED_SIZE..from] + buffer[from..BATCH_FIXED_SIZE + recordsSize];
    }

    method MarkEnd()
      requires Valid()
      modifies this, buffer
      ensures Valid() && batch == MarkedEnd(old(batch))
    {
      assert buffer[8] == buffer[2..BATCH_FIXED_SIZE][6];
      assert buffer[2..BATCH_FIXED_SIZE][6] == batch.flags;
      if !HasFlag(buffer[8], BATCH_FLAG_END) {
        buffer[8] := (buffer[8] + BATCH_FLAG_END) % 0x100;
      }
      batch := MarkedEnd(batch);
      assert buffer[2..BATCH_FIXED_SIZE] == old(buffer[2..BATCH_FIXED_SIZE])[6 := batch.flags];
      assert HeadTail(old(batch))[6 := batch.flags] == HeadTail(batch);
      assert buffer[BATCH_FIXED_SIZE..BATCH_FIXED_SIZE + recordsSize]
          == old(buffer[BATCH_FIXED_SIZE..BATCH_FIXED_SIZE + recordsSize]);
    }

    /** The buffer now begins with the whole message body. */
    method Finish() returns (size: nat)
      requires Valid()
      modifies buffer
      ensures Valid() && size <= buffer.Length && buffer[..size] == EncodeBatch(batch)
    {
      size := BATCH_FIXED_SIZE + recordsSize;
      buffer[1] := stepCount;
      assert buffer[2..BATCH_FIXED_SIZE] == old(buffer[2..BATCH_FIXED_SIZE]);
      assert buffer[BATCH_FIXED_SIZE..size] == old(buffer[BATCH_FIXED_SIZE..size]);
      assert buffer[..size] == [buffer[0], buffer[1]] + buffer[2..BATCH_FIXED_SIZE] + buffer[BATCH_FIXED_SIZE..size];
    }
  }

  class SenderMachine {
    var state: SenderState
    var channel: u8
    var txnId: u16
    var beginStatus: u8
    var ended: bool
    var window: u32
    var sent: u32
    var consumed: u32
    var completed: u32
    var nextSeq: u32
    var messageOpen: bool
    var batchOpen: bool
    const writer: StepsWriter

    ghost function State(): Sender
      reads this, writer
    {
      Sender(state, channel, txnId, beginStatus, ended, window, sent, consumed, completed, nextSeq, messageOpen,
             if batchOpen then Some(writer.batch) else None)
    }

    ghost predicate Valid()
      reads this, writer, writer.buffer
    {
      && writer.buffer.Length == BATCH_FIXED_SIZE + BATCH_RECORD_BYTES_MAX
      && (batchOpen ==> writer.Valid())
    }

    constructor ()
      ensures Valid() && State() == RESET && fresh(writer) && fresh(writer.buffer)
    {
      state, channel, txnId, beginStatus, ended, window := Idle, 0, 0, 0, false, 0;
      sent, consumed, completed, nextSeq, messageOpen, batchOpen := 0, 0, 0, 0, false, false;
      writer := new StepsWriter(BATCH_FIXED_SIZE + BATCH_RECORD_BYTES_MAX);
    }

    method Begin(channel: u8)
      requires Valid()
      modifies this
      ensures Valid() && State() == Spec.Begin(channel)
    {
      state, this.channel, txnId, beginStatus, ended, window := Beginning, channel, 0, 0, false, 0;
      sent, consumed, completed, nextSeq, messageOpen, batchOpen := 0, 0, 0, 0, false, false;
    }

    method OnBeginAck(channel: u8, status: u8, txnId: u16, window: u32)
      requires Valid()
      modifies this
      ensures Valid() && State() == Spec.OnBeginAck(old(State()), channel, status, txnId, window)
    {
      if state != Beginning || channel != this.channel {
        return;
      }
      beginStatus := status;
      if status != 0 {
        state := Finished;
        return;
      }
      state, this.txnId, this.window := Running, txnId, window;
    }

    method OnProgress(channel: u8, txnId: u16, completed: u32, consumed: u32)
      requires Valid()
      modifies this
      ensures Valid() && State() == Spec.OnProgress(old(State()), channel, txnId, completed, consumed)
    {
      if state != Running || channel != this.channel || txnId != this.txnId {
        return;
      }
      this.consumed, this.completed := consumed, completed;
    }

    method OnStatus(channel: u8, txnId: u16, completed: u32)
      requires Valid()
      modifies this
      ensures Valid() && State() == Spec.OnStatus(old(State()), channel, txnId, completed)
    {
      if channel != this.channel {
        return;
      }
      if state == Running && txnId != this.txnId {
        return;
      }
      if state != Running && state != Beginning {
        return;
      }
      this.completed, state := completed, Finished;
    }

    method OpenBatch()
      requires Valid()
      modifies this, writer, writer.buffer
      ensures Valid() && batchOpen && State() == Opened(old(State()))
    {
      if !batchOpen {
        var ok := writer.Init(channel, txnId, nextSeq, 0);
        batchOpen := true;
      }
    }

    method Offer(step: TxnStep) returns (offered: Offered)
      requires Valid()
      modifies this, writer, writer.buffer
      ensures Valid()
      ensures offered == OfferResult(old(State()), step) && State() == Spec.Offer(old(State()), step)
    {
      if state != Running || ended || !IsStepValid(step) {
        return Rejected;
      }
      if ((sent - consumed) % WORD + RecordSize(step)) % WORD > window {
        return NoCredit;
      }
      offered := Put(step);
    }

    method Put(step: TxnStep) returns (offered: Offered)
      requires Valid() && IsStepValid(step)
      modifies this, writer, writer.buffer
      ensures Valid()
      ensures var open := Opened(old(State()));
        if Fits(open.batch.value, step) then offered == Accepted && State() == Spec.Take(open, step)
        else offered == FlushNeeded && State() == open
    {
      OpenBatch();
      offered := PutInto(step);
    }

    method PutInto(step: TxnStep) returns (offered: Offered)
      requires Valid() && IsStepValid(step) && batchOpen
      modifies this, writer, writer.buffer
      ensures Valid()
      ensures if Fits(old(writer.batch), step) then offered == Accepted && State() == Spec.Take(old(State()), step)
        else offered == FlushNeeded && State() == old(State())
    {
      ghost var open := State();
      var taken := writer.Append(step);
      if !taken {
        return FlushNeeded;
      }
      assert writer.batch == Spec.Take(open, step).batch.value;
      Count(step);
      return Accepted;
    }

    method Count(step: TxnStep)
      modifies `sent, `messageOpen, `nextSeq
      ensures sent == (old(sent) + RecordSize(step)) % WORD
      ensures messageOpen == step.isContinued && nextSeq == SeqAfter(old(nextSeq), step)
    {
      sent := (sent + RecordSize(step)) % WORD;
      messageOpen := step.isContinued;
      if !messageOpen {
        nextSeq := (nextSeq + 1) % WORD;
      }
    }

    method End() returns (offered: Offered)
      requires Valid()
      modifies this, writer, writer.buffer
      ensures Valid() && State() == Spec.End(old(State()))
      ensures offered == if CanEnd(old(State())) then Accepted else Rejected
    {
      if state != Running || ended || messageOpen {
        return Rejected;
      }
      OpenBatch();
      writer.MarkEnd();
      ended := true;
      return Accepted;
    }

    /** The open batch, encoded; nothing when there is none. */
    method PendingBatch() returns (body: seq<u8>)
      requires Valid()
      modifies writer.buffer
      ensures Valid() && (batchOpen ==> |writer.batch.steps| <= BATCH_COUNT_MAX)
      ensures body == if batchOpen then EncodeBatch(writer.batch) else []
    {
      if !batchOpen {
        return [];
      }
      var size := writer.Finish();
      return writer.buffer[..size];
    }

    method BatchSent()
      requires Valid()
      modifies this
      ensures Valid() && State() == Spec.BatchSent(old(State()))
    {
      batchOpen := false;
    }
  }

  /** A roster or a template as it is told to the agent; how it is encoded is not modelled. */
  datatype Definition =
    | RosterDefinition(channel: u8, txnId: u16, roster: Roster)
    | TemplateDefinition(channel: u8, txnId: u16, template: Template)

  /** What goes to the hub: the bytes of a batch, or a definition. */
  datatype Parcel = Bytes(body: seq<u8>) | Told(definition: Definition)

  /** The connection to the hub, which may refuse what it is given. */
  class HubPort {
    var parcels: seq<Parcel>

    /** How often it refused. */
    ghost var refusals: nat

    constructor ()
      ensures parcels == [] && refusals == 0
    {
      parcels, refusals := [], 0;
    }

    method SendFrame(parcel: Parcel) returns (ok: bool)
      modifies this
      ensures parcels == old(parcels) + if ok then [parcel] else []
      ensures refusals == old(refusals) + if ok then 0 else 1
    {
      ok := *;
      if ok {
        parcels := parcels + [parcel];
      } else {
        refusals := refusals + 1;
      }
    }
  }

  /** What the hub took, in order. */
  datatype Delivery = Batched(batch: Batch) | Named(definition: Definition)

  /** What the client has to say to the agent, one thing at a time. */
  datatype Entry = StepEntry(step: TxnStep) | DefinitionEntry(definition: Definition)

  function StepEntries(steps: seq<TxnStep>): seq<Entry> {
    seq(|steps|, i requires 0 <= i < |steps| => StepEntry(steps[i]))
  }

  function EntriesOf(delivery: Delivery): seq<Entry> {
    match delivery
    case Batched(b) => StepEntries(b.steps)
    case Named(d) => [DefinitionEntry(d)]
  }

  function AllEntries(deliveries: seq<Delivery>): seq<Entry> {
    if deliveries == [] then []
    else AllEntries(deliveries[..|deliveries| - 1]) + EntriesOf(deliveries[|deliveries| - 1])
  }

  lemma AllEntriesPush(deliveries: seq<Delivery>, d: Delivery)
    ensures AllEntries(deliveries + [d]) == AllEntries(deliveries) + EntriesOf(d)
  {
    assert (deliveries + [d])[..|deliveries|] == deliveries;
  }

  function ParcelOf(delivery: Delivery): Parcel {
    match delivery
    case Batched(b) => Bytes(if |b.steps| <= BATCH_COUNT_MAX then EncodeBatch(b) else [])
    case Named(d) => Told(d)
  }

  /** What deliveries are on the wire. */
  function Parcels(deliveries: seq<Delivery>): seq<Parcel> {
    seq(|deliveries|, i requires 0 <= i < |deliveries| => ParcelOf(deliveries[i]))
  }

  lemma ParcelsPush(deliveries: seq<Delivery>, d: Delivery)
    ensures Parcels(deliveries + [d]) == Parcels(deliveries) + [ParcelOf(d)]
  {
  }

  lemma StepEntriesPush(steps: seq<TxnStep>, step: TxnStep)
    ensures StepEntries(steps + [step]) == StepEntries(steps) + [StepEntry(step)]
  {
  }

  class Client {
    const transaction: SenderMachine
    const hub: HubPort

    /** What the hub took, in order. */
    ghost var deliveries: seq<Delivery>

    ghost predicate Valid()
      reads this, hub, transaction, transaction.writer, transaction.writer.buffer
    {
      transaction.Valid() && hub.parcels == Parcels(deliveries)
    }

    ghost function Pending(): seq<TxnStep>
      reads transaction, transaction.writer
    {
      if transaction.batchOpen then transaction.writer.batch.steps else []
    }

    /** Everything accepted so far in the order the agent will see it: what has been sent, then the steps still pending. */
    ghost function Stream(): seq<Entry>
      reads this, transaction, transaction.writer
    {
      AllEntries(deliveries) + StepEntries(Pending())
    }

    constructor ()
      ensures Valid() && transaction.State() == RESET && Stream() == []
    {
      transaction := new SenderMachine();
      hub := new HubPort();
      deliveries := [];
    }

    /** The batch leaves whole or stays pending. */
    method Flush() returns (ok: bool)
      requires Valid()
      modifies this, transaction, transaction.writer.buffer, hub
      ensures Valid() && Stream() == old(Stream())
      ensures transaction.State() == if ok then BatchSent(old(transaction.State())) else old(transaction.State())
      ensures !ok ==> hub.parcels == old(hub.parcels)
      ensures hub.refusals == old(hub.refusals) + if ok then 0 else 1
    {
      var body := transaction.PendingBatch();
      if |body| == 0 {
        return true;
      }
      ok := hub.SendFrame(Bytes(body));
      if ok {
        ghost var b := transaction.writer.batch;
        AllEntriesPush(deliveries, Batched(b));
        ParcelsPush(deliveries, Batched(b));
        deliveries := deliveries + [Batched(b)];
        transaction.BatchSent();
      }
    }

    /** A definition goes out only after all steps accepted before it: the open batch leaves first. */
    method Define(definition: Definition) returns (ok: bool)
      requires Valid() && transaction.state == Running
      modifies this, transaction, transaction.writer.buffer, hub
      ensures Valid() && Stream() == old(Stream()) + if ok then [DefinitionEntry(definition)] else []
      ensures transaction.State() == if transaction.batchOpen then old(transaction.State()) else BatchSent(old(transaction.State()))
      ensures ok ==> !transaction.batchOpen
      ensures hub.refusals == old(hub.refusals) + if ok then 0 else 1
    {
      ok := Flush();
      if !ok {
        return;
      }
      ok := Tell(definition);
    }

    method Tell(definition: Definition) returns (ok: bool)
      requires Valid() && !transaction.batchOpen
      modifies this, hub
      ensures Valid() && Stream() == old(Stream()) + if ok then [DefinitionEntry(definition)] else []
      ensures hub.refusals == old(hub.refusals) + if ok then 0 else 1
    {
      ok := hub.SendFrame(Told(definition));
      if ok {
        AllEntriesPush(deliveries, Named(definition));
        ParcelsPush(deliveries, Named(definition));
        deliveries := deliveries + [Named(definition)];
      }
    }

    method DefineRoster(roster: Roster) returns (ok: bool)
      requires Valid()
      modifies this, transaction, transaction.writer.buffer, hub
      ensures ok <==> old(transaction.state) == Running && hub.refusals == old(hub.refusals)
      ensures Valid() && Stream() == old(Stream()) +
        if ok then [DefinitionEntry(RosterDefinition(transaction.channel, transaction.txnId, roster))] else []
    {
      if transaction.state != Running {
        return false;
      }
      ok := Define(RosterDefinition(transaction.channel, transaction.txnId, roster));
    }

    method DefineTemplate(template: Template) returns (ok: bool)
      requires Valid()
      modifies this, transaction, transaction.writer.buffer, hub
      ensures ok <==> old(transaction.state) == Running && hub.refusals == old(hub.refusals)
      ensures Valid() && Stream() == old(Stream()) +
        if ok then [DefinitionEntry(TemplateDefinition(transaction.channel, transaction.txnId, template))] else []
    {
      if transaction.state != Running {
        return false;
      }
      ok := Define(TemplateDefinition(transaction.channel, transaction.txnId, template));
    }

    /** One offer: the step joins the others exactly when it is accepted. */
    method Offer(step: TxnStep) returns (offered: Offered)
      requires Valid()
      modifies transaction, transaction.writer, transaction.writer.buffer
      ensures Valid() && Stream() == old(Stream()) + if offered == Accepted then [StepEntry(step)] else []
      ensures offered == OfferResult(old(transaction.State()), step)
      ensures transaction.State() == Spec.Offer(old(transaction.State()), step)
    {
      ghost var before := Pending();
      offered := transaction.Offer(step);
      StepEntriesPush(before, step);
    }

    /** A turn of the send loop: it goes round again after the step was taken or a full batch left. */
    method OfferOrFlush(step: TxnStep) returns (offered: Offered, again: bool)
      requires Valid()
      modifies this, transaction, transaction.writer, transaction.writer.buffer, hub
      ensures Valid() && Stream() == old(Stream()) + if offered == Accepted then [StepEntry(step)] else []
      ensures offered == Accepted ==> again
      ensures again && offered != Accepted ==> old(transaction.batchOpen) && !transaction.batchOpen
      ensures !again ==> OfferResult(transaction.State(), step) == offered
      ensures !again && offered == FlushNeeded ==> hub.refusals > old(hub.refusals)
      ensures hub.refusals >= old(hub.refusals)
    {
      ghost var was := transaction.State();
      offered := Offer(step);
      if offered == Accepted {
        return offered, true;
      }
      if offered != FlushNeeded {
        return offered, false;
      }
      if was.batch.None? {
        EmptyBatchFits(was, step);
      }
      again := Flush();
    }

    /**
      Offers steps until one cannot be taken, flushing full batches: what was
      accepted is sent or pending, in order, nothing lost or doubled. The loop
      ends because a step always fits the batch that follows a flush.
     */
    method SendSteps(steps: seq<TxnStep>) returns (accepted: nat, stoppedBy: Offered)
      requires Valid()
      modifies this, transaction, transaction.writer, transaction.writer.buffer, hub
      ensures Valid() && accepted <= |steps|
      ensures stoppedBy == Accepted <==> accepted == |steps|
      ensures accepted < |steps| ==> OfferResult(transaction.State(), steps[accepted]) == stoppedBy
      ensures stoppedBy == FlushNeeded ==> hub.refusals > old(hub.refusals)
      ensures Stream() == old(Stream()) + StepEntries(steps[..accepted])
    {
      accepted, stoppedBy := 0, Accepted;
      var again := true;
      while accepted < |steps| && again
        invariant Valid() && accepted <= |steps|
        invariant stoppedBy != Accepted ==> accepted < |steps|
        invariant stoppedBy == Accepted ==> again
        invariant !again ==> OfferResult(transaction.State(), steps[accepted]) == stoppedBy
        invariant !again && stoppedBy == FlushNeeded ==> hub.refusals > old(hub.refusals)
        invariant hub.refusals >= old(hub.refusals)
        invariant Stream() == old(Stream()) + StepEntries(steps[..accepted])
        decreases again, |steps| - accepted, transaction.batchOpen
      {
        stoppedBy, again := OfferOrFlush(steps[accepted]);
        if stoppedBy == Accepted {
          assert steps[..accepted + 1] == steps[..accepted] + [steps[accepted]];
          StepEntriesPush(steps[..accepted], steps[accepted]);
          accepted := accepted + 1;
        }
      }
    }

    /** Ends the transaction if it can end, and flushes. */
    method EndTransaction() returns (offered: Offered)
      requires Valid()
      modifies this, transaction, transaction.writer, transaction.writer.buffer, hub
      ensures Valid() && Stream() == old(Stream())
      ensures offered == Accepted <==> CanEnd(old(transaction.State()))
    {
      offered := transaction.End();
      var flushed := Flush();
    }
  }
}
