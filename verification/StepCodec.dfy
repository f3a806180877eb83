/** Step records and TXN_STEPS batches on the wire (src/protocol/txn_steps_message.c, src/protocol/wire.c). */
module StepCodec {
  import opened Frames
  import opened ByteStrings

  const TEMPLATES_MAX := 16
  const RECORD_HEADER_SIZE := 8
  const RECORD_ALIGNMENT := 8
  const EXPECT_VALUE_SIZE := 8
  const RECORD_SIZE_MAX := 272
  const BATCH_FIXED_SIZE := 12
  const BATCH_RECORD_BYTES_MAX := 400
  const BATCH_COUNT_MAX := 255

  const FLAG_EXPECT_VALUE: u8 := 1
  const FLAG_EXPECT_ONLY: u8 := 2
  const FLAG_MESSAGE: u8 := 8
  const FLAG_CONTINUED: u8 := 16
  const BATCH_FLAG_END: u8 := 1

  type StepPayload = p: seq<u8> | |p| <= 255 witness []

  /** A record's four known flag bits are the booleans; the others mean nothing and are not kept. */
  datatype TxnStep = TxnStep(
    templateId: u8, expectsValue: bool, expectOnly: bool, isMessage: bool, isContinued: bool,
    frameFlags: u8, canId: u32, expectValue: u64, payload: StepPayload)

  predicate IsMessageRecordValid(s: TxnStep) {
    && s.payload != [] && s.frameFlags == 0
    && !s.expectOnly
    && (s.isContinued ==> !s.expectsValue)
  }

  predicate IsStepValid(s: TxnStep) {
    && s.templateId < TEMPLATES_MAX
    && if s.isMessage then IsMessageRecordValid(s)
       else
         && !s.isContinued
         && (s.expectOnly ==> s.payload == [])
         && IsPayloadLengthValid(|s.payload|, s.frameFlags)
  }

  // ---------- little-endian words ----------

  function WriteU16(v: u16): (b: seq<u8>)
    ensures |b| == 2
  {
    [v % 0x100, v / 0x100]
  }

  function WriteU32(v: u32): (b: seq<u8>)
    ensures |b| == 4
  {
    WriteU16(v % 0x1_0000) + WriteU16(v / 0x1_0000)
  }

  function WriteU64(v: u64): (b: seq<u8>)
    ensures |b| == 8
  {
    WriteU32(v % 0x1_0000_0000) + WriteU32(v / 0x1_0000_0000)
  }

  function ReadU16(b: seq<u8>): u16
    requires |b| >= 2
  {
    var low: nat, high: nat := b[0], b[1];
    low + 0x100 * high
  }

  function ReadU32(b: seq<u8>): u32
    requires |b| >= 4
  {
    var low: nat, high: nat := ReadU16(b), ReadU16(b[2..]);
    low + 0x1_0000 * high
  }

  function ReadU64(b: seq<u8>): u64
    requires |b| >= 8
  {
    var low: nat, high: nat := ReadU32(b), ReadU32(b[4..]);
    low + 0x1_0000_0000 * high
  }

  lemma ReadsBackU32(v: u32, rest: seq<u8>)
    ensures ReadU32(WriteU32(v) + rest) == v
  {
    var b := WriteU32(v) + rest;
    assert b[..2] == WriteU16(v % 0x1_0000);
    assert b[2..][..2] == WriteU16(v / 0x1_0000);
  }

  lemma ReadsBackU64(v: u64, rest: seq<u8>)
    ensures ReadU64(WriteU64(v) + rest) == v
  {
    var low, high := v % 0x1_0000_0000, v / 0x1_0000_0000;
    ReadsBackU32(low, WriteU32(high) + rest);
    ReadsBackU32(high, rest);
    var b := WriteU64(v) + rest;
    assert b == WriteU32(low) + (WriteU32(high) + rest);
    assert b[4..] == WriteU32(high) + rest;
  }

  // ---------- records ----------

  function PaddedSize(length: nat): (size: nat)
    ensures length <= size < length + RECORD_ALIGNMENT && size % RECORD_ALIGNMENT == 0
  {
    (length + RECORD_ALIGNMENT - 1) / RECORD_ALIGNMENT * RECORD_ALIGNMENT
  }

  function RecordSize(s: TxnStep): (size: nat)
    ensures RECORD_HEADER_SIZE <= size <= RECORD_SIZE_MAX && size % RECORD_ALIGNMENT == 0
  {
    RECORD_HEADER_SIZE + PaddedSize(|s.payload|) + if s.expectsValue then EXPECT_VALUE_SIZE else 0
  }

  function Zeros(count: nat): (z: seq<u8>)
    ensures |z| == count
  {
    seq(count, _ => 0)
  }

  function FlagByte(s: TxnStep): u8 {
    (if s.expectsValue then FLAG_EXPECT_VALUE else 0) + (if s.expectOnly then FLAG_EXPECT_ONLY else 0)
    + (if s.isMessage then FLAG_MESSAGE else 0) + (if s.isContinued then FLAG_CONTINUED else 0)
  }

  function Header(s: TxnStep): (b: seq<u8>)
    ensures |b| == RECORD_HEADER_SIZE
  {
    [s.templateId, FlagByte(s), |s.payload|, s.frameFlags] + WriteU32(s.canId)
  }

  function Encode(s: TxnStep): (b: seq<u8>)
    ensures |b| == RecordSize(s)
  {
    Header(s) + s.payload + Zeros(PaddedSize(|s.payload|) - |s.payload|)
    + if s.expectsValue then WriteU64(s.expectValue) else []
  }

  /** The record at the front of `b`, if it is whole and valid. */
  function Decode(b: seq<u8>): (d: Option<Taken<TxnStep>>)
    ensures d.Some? ==> IsStepValid(d.value.item) && d.value.size == RecordSize(d.value.item) <= |b|
  {
    if |b| < RECORD_HEADER_SIZE then None
    else
      var length: nat := b[2];
      var shape := TxnStep(b[0], HasFlag(b[1], FLAG_EXPECT_VALUE), HasFlag(b[1], FLAG_EXPECT_ONLY),
                           HasFlag(b[1], FLAG_MESSAGE), HasFlag(b[1], FLAG_CONTINUED),
                           b[3], ReadU32(b[4..]), 0, Zeros(length));
      if !IsStepValid(shape) || |b| < RecordSize(shape) then None
      else
        var at := RECORD_HEADER_SIZE + PaddedSize(length);
        var expected := if shape.expectsValue then ReadU64(b[at..]) else 0;
        var step := shape.(payload := b[RECORD_HEADER_SIZE..RECORD_HEADER_SIZE + length], expectValue := expected);
        assert length > 0 ==> step.payload != [];
        Some(Taken(step, RecordSize(step)))
  }

  /** A record carries the expect value only under its flag. */
  function Carried(s: TxnStep): TxnStep {
    if s.expectsValue then s else s.(expectValue := 0)
  }

  lemma FlagsReadBack(s: TxnStep)
    ensures HasFlag(FlagByte(s), FLAG_EXPECT_VALUE) == s.expectsValue
    ensures HasFlag(FlagByte(s), FLAG_EXPECT_ONLY) == s.expectOnly
    ensures HasFlag(FlagByte(s), FLAG_MESSAGE) == s.isMessage
    ensures HasFlag(FlagByte(s), FLAG_CONTINUED) == s.isContinued
  {
  }

  /** Where the parts of a record stand. */
  lemma EncodedLayout(s: TxnStep, rest: seq<u8>)
    ensures var b, n, at := Encode(s) + rest, |s.payload|, RECORD_HEADER_SIZE + PaddedSize(|s.payload|);
      && b[..8] == Header(s) && b[4..] == WriteU32(s.canId) + b[8..] && b[8..8 + n] == s.payload
      && (s.expectsValue ==> b[at..] == WriteU64(s.expectValue) + rest)
  {
  }

  lemma DecodesBack(s: TxnStep, rest: seq<u8>)
    requires IsStepValid(s)
    ensures Decode(Encode(s) + rest) == Some(Taken(Carried(s), RecordSize(s)))
  {
    var b := Encode(s) + rest;
    EncodedLayout(s, rest);
    FlagsReadBack(s);
    ReadsBackU32(s.canId, b[8..]);
    if s.expectsValue {
      ReadsBackU64(s.expectValue, rest);
    }
    assert |s.payload| == 0 <==> Zeros(|s.payload|) == [];
  }

  // ---------- batches ----------

  /** The steps of `count` records back to back. */
  function ParseRecords(b: seq<u8>, count: nat): Option<seq<TxnStep>> {
    ReadAll(Decode, b, count)
  }

  function Records(steps: seq<TxnStep>): seq<seq<u8>> {
    seq(|steps|, i requires 0 <= i < |steps| => Encode(steps[i]))
  }

  function EncodeAll(steps: seq<TxnStep>): seq<u8> {
    Concat(Records(steps))
  }

  function CarriedAll(steps: seq<TxnStep>): seq<TxnStep> {
    seq(|steps|, i requires 0 <= i < |steps| => Carried(steps[i]))
  }

  lemma EncodeAllAppend(steps: seq<TxnStep>, last: TxnStep)
    ensures EncodeAll(steps + [last]) == EncodeAll(steps) + Encode(last)
  {
    assert Records(steps + [last]) == Records(steps) + [Encode(last)];
    ConcatPush(Records(steps), Encode(last));
  }

  lemma BatchParsesBack(steps: seq<TxnStep>)
    requires forall s | s in steps :: IsStepValid(s)
    ensures ParseRecords(EncodeAll(steps), |steps|) == Some(CarriedAll(steps))
  {
    forall i, rest | 0 <= i < |steps|
      ensures Decode(Records(steps)[i] + rest) == Some(Taken(CarriedAll(steps)[i], |Records(steps)[i]|))
    {
      DecodesBack(steps[i], rest);
    }
    ReadsBackInOrder(Decode, Records(steps), CarriedAll(steps));
  }

  /** The check a receiver makes of a batch. */
  method AreRecordsWellFormed(records: seq<u8>, count: u8) returns (ok: bool)
    ensures ok <==> ParseRecords(records, count).Some?
  {
    ok := Walk(Decode, records, count);
  }

  // ---------- step numbers ----------

  /** A message's records carry one number: only its last one counts. */
  function SeqAfter(number: u32, step: TxnStep): u32 {
    if step.isContinued then number else (number + 1) % WORD
  }

  function SeqAfterAll(number: u32, steps: seq<TxnStep>): u32
    decreases |steps|
  {
    if steps == [] then number else SeqAfter(SeqAfterAll(number, steps[..|steps| - 1]), steps[|steps| - 1])
  }

  lemma SeqAfterPush(number: u32, steps: seq<TxnStep>, step: TxnStep)
    ensures SeqAfterAll(number, steps + [step]) == SeqAfter(SeqAfterAll(number, steps), step)
  {
    assert (steps + [step])[..|steps|] == steps;
  }

  datatype Batch = Batch(channel: u8, txnId: u16, firstSeq: u32, flags: u8, steps: seq<TxnStep>)
  {
    predicate IsEnd() { HasFlag(flags, BATCH_FLAG_END) }
  }

  function BatchHead(channel: u8, count: u8, txnId: u16, firstSeq: u32, flags: u8): (h: seq<u8>)
    ensures |h| == BATCH_FIXED_SIZE
  {
    [channel, count] + WriteU16(txnId) + WriteU32(firstSeq) + [flags, 0, 0, 0]
  }

  function EncodeBatch(m: Batch): seq<u8>
    requires |m.steps| <= BATCH_COUNT_MAX
  {
    BatchHead(m.channel, |m.steps|, m.txnId, m.firstSeq, m.flags) + EncodeAll(m.steps)
  }

  function DecodeBatch(body: seq<u8>): Option<Batch> {
    if |body| < BATCH_FIXED_SIZE || |body| - BATCH_FIXED_SIZE > BATCH_RECORD_BYTES_MAX then None
    else
      match ParseRecords(body[BATCH_FIXED_SIZE..], body[1])
      case None => None
      case Some(steps) => Some(Batch(body[0], ReadU16(body[2..]), ReadU32(body[4..]), body[8], steps))
  }

  lemma HeadReadsBack(channel: u8, count: u8, txnId: u16, firstSeq: u32, flags: u8, rest: seq<u8>)
    ensures var b := BatchHead(channel, count, txnId, firstSeq, flags) + rest;
      && b[0] == channel && b[1] == count && b[8] == flags && b[BATCH_FIXED_SIZE..] == rest
      && ReadU16(b[2..]) == txnId && ReadU32(b[4..]) == firstSeq
  {
    var b := BatchHead(channel, count, txnId, firstSeq, flags) + rest;
    assert b[2..][..2] == WriteU16(txnId);
    assert b[4..] == WriteU32(firstSeq) + ([flags, 0, 0, 0] + rest);
    ReadsBackU32(firstSeq, [flags, 0, 0, 0] + rest);
  }

  lemma BatchRoundTrip(m: Batch)
    requires |m.steps| <= BATCH_COUNT_MAX && |EncodeAll(m.steps)| <= BATCH_RECORD_BYTES_MAX
    requires forall s | s in m.steps :: IsStepValid(s)
    ensures DecodeBatch(EncodeBatch(m)) == Some(m.(steps := CarriedAll(m.steps)))
  {
    HeadReadsBack(m.channel, |m.steps|, m.txnId, m.firstSeq, m.flags, EncodeAll(m.steps));
    BatchParsesBack(m.steps);
  }
}
