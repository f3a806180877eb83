/**
  One ISO 15765-2 conversation (src/agent/domain/isotp_link.c), as functions on
  the link's state. Every function that transmits takes the bus's answer `ok`
  and returns the frames that went out.
 */
module IsotpLink {
  import opened Frames

  const MESSAGE_SIZE_MAX := 4095
  const TIMEOUT_US := 1000000
  const WAIT_FRAMES_MAX := 10
  const RETRY_US := 1000

  /** ISOTP_FRAMES_PER_TICK_MAX; a function, so that no loop is unrolled over it. */
  function FramesPerTick(): nat { 64 }

  /** TxnIsotpParameters; its four known flag bits are the booleans. */
  datatype Params = Params(
    responseId: u32, padded: bool, addressed: bool, fd: bool, bitRateSwitch: bool,
    txAddress: u8, rxAddress: u8, padding: u8, txDataLength: u8, blockSize: u8, stMin: u8)

  datatype Event = NoEvent | Sent | Message | Failed

  datatype Reason =
    | NoReason | TxFailed | FlowControlTimeout | ConsecutiveFrameTimeout
    | Overflow | SequenceError | WaitLimit

  datatype SenderPhase = SenderIdle | FirstFrame | FlowControl | ConsecutiveFrames

  datatype Sender = Sender(
    message: seq<u8>, offset: nat, phase: SenderPhase, sequence: nat,
    blockLimited: bool, blockRemaining: nat, waitCount: nat,
    stMinUs: nat, nextFrameUs: nat, deadlineUs: nat)

  datatype Receiver = Receiver(
    length: nat, received: nat, reassembling: bool, sequence: nat,
    blockReceived: nat, pending: bool, flowControlDueUs: nat, deadlineUs: nat)

  datatype Link = Link(
    requestId: u32, channel: u8, params: Params,
    sender: Sender, receiver: Receiver, buffer: seq<u8>, failure: Reason)

  /** What a call leaves behind: the new state, the event returned, the frames sent. */
  datatype Out = Out(link: Link, event: Event, frames: seq<Frame>)

  // ---------- parameters and capacities ----------

  function AddressSize(p: Params): nat {
    if p.addressed then 1 else 0
  }

  function TxDataLength(p: Params): nat {
    if p.fd then p.txDataLength else PAYLOAD_MAX_CLASSIC
  }

  /** What the agent checks of the data length before it opens a link. */
  predicate ParamsOk(p: Params) {
    8 <= TxDataLength(p) <= 64
  }

  function ClassicSingleCapacity(p: Params): nat {
    PAYLOAD_MAX_CLASSIC - AddressSize(p) - 1
  }

  function EscapeSingleCapacity(p: Params): nat
    requires ParamsOk(p)
  {
    if TxDataLength(p) <= PAYLOAD_MAX_CLASSIC then 0 else TxDataLength(p) - AddressSize(p) - 2
  }

  function FirstCapacity(p: Params): nat
    requires ParamsOk(p)
  {
    TxDataLength(p) - AddressSize(p) - 2
  }

  function ConsecutiveCapacity(p: Params): nat
    requires ParamsOk(p)
  {
    TxDataLength(p) - AddressSize(p) - 1
  }

  predicate FitsSingle(p: Params, length: nat)
    requires ParamsOk(p)
  {
    length <= ClassicSingleCapacity(p) || length <= EscapeSingleCapacity(p)
  }

  function StMinUs(stMin: u8): nat {
    if stMin <= 0x7F then stMin * 1000
    else if 0xF1 <= stMin <= 0xF9 then (stMin - 0xF0) * 100
    else 0x7F * 1000
  }

  function FrameLength(p: Params, size: nat): (length: nat)
    requires size <= PAYLOAD_MAX_FD
    ensures size <= length <= PAYLOAD_MAX_FD
    ensures size > PAYLOAD_MAX_CLASSIC ==>
      length in FD_LENGTHS && forall n | n in FD_LENGTHS && size <= n :: length <= n
  {
    if size <= PAYLOAD_MAX_CLASSIC then
      if p.padded then PAYLOAD_MAX_CLASSIC else size
    else if size <= 12 then 12
    else if size <= 16 then 16
    else if size <= 20 then 20
    else if size <= 24 then 24
    else if size <= 32 then 32
    else if size <= 48 then 48
    else 64
  }

  function Filler(p: Params, count: nat): (s: seq<u8>)
    ensures |s| == count
  {
    seq(count, _ => p.padding)
  }

  function LinkFrameFlags(p: Params): u8 {
    (if p.fd then FLAG_FD else 0) + (if p.bitRateSwitch then FLAG_BRS else 0)
  }

  /** The frame the link puts a protocol data unit in: address byte, unit, filler. */
  function BuildFrame(l: Link, pdu: seq<u8>): (f: Frame)
    requires AddressSize(l.params) + |pdu| <= PAYLOAD_MAX_FD
  {
    var p := l.params;
    var a := AddressSize(p);
    var head: seq<u8> := if a == 1 then [p.txAddress] else [];
    Frame(l.requestId, l.channel, LinkFrameFlags(p), false,
          head + pdu + Filler(p, FrameLength(p, a + |pdu|) - a - |pdu|))
  }

  function SingleFramePdu(p: Params, message: seq<u8>): seq<u8>
    requires ParamsOk(p) && FitsSingle(p, |message|)
  {
    if |message| > ClassicSingleCapacity(p) then [0, |message|] + message else [|message|] + message
  }

  function FirstFramePdu(p: Params, message: seq<u8>): seq<u8>
    requires ParamsOk(p) && !FitsSingle(p, |message|) && |message| <= MESSAGE_SIZE_MAX
  {
    [0x10 + |message| / 0x100, |message| % 0x100] + message[..FirstCapacity(p)]
  }

  function ConsecutiveFramePdu(p: Params, s: Sender): seq<u8>
    requires ParamsOk(p) && s.sequence < 16 && s.offset <= |s.message|
  {
    [0x20 + s.sequence] + s.message[s.offset..s.offset + Min(ConsecutiveCapacity(p), |s.message| - s.offset)]
  }

  function FlowControlPdu(p: Params, status: nat): seq<u8>
    requires status < 16
  {
    [0x30 + status, p.blockSize, p.stMin]
  }

  // ---------- state predicates ----------

  predicate SenderOk(s: Sender) {
    && |s.message| <= MESSAGE_SIZE_MAX
    && s.offset <= |s.message|
    && s.sequence < 16
    && (s.phase.ConsecutiveFrames? || s.phase.FlowControl? ==> s.offset < |s.message|)
    && (s.phase.ConsecutiveFrames? && s.blockLimited ==> s.blockRemaining > 0)
  }

  /** While reassembling, fewer bytes are held than announced, and the announcement fits the buffer. */
  predicate ReceiverOk(r: Receiver) {
    && r.sequence < 16
    && r.length <= MESSAGE_SIZE_MAX
    && (r.reassembling ==> r.received < r.length)
  }

  predicate LinkOk(l: Link) {
    ParamsOk(l.params) && SenderOk(l.sender) && ReceiverOk(l.receiver) && |l.buffer| == MESSAGE_SIZE_MAX
  }

  /** A link before it is first opened. */
  function Closed(): (l: Link)
    ensures LinkOk(l)
  {
    Link(0, 0, Params(0, false, false, false, false, 0, 0, 0, 0, 0, 0), IDLE_SENDER,
         Receiver(0, 0, false, 0, 0, false, 0, 0), seq(MESSAGE_SIZE_MAX, _ => 0), NoReason)
  }

  /**
    Every time the link holds is after the clock's zero: Earliest takes 0 for
    "none". Each operation at a positive time keeps this.
   */
  predicate TimesPositive(l: Link) {
    && (l.sender.phase.FirstFrame? || l.sender.phase.ConsecutiveFrames? ==> l.sender.nextFrameUs > 0)
    && (l.sender.phase.FlowControl? ==> l.sender.deadlineUs > 0)
    && (l.receiver.reassembling && l.receiver.pending ==> l.receiver.flowControlDueUs > 0)
    && (l.receiver.reassembling && !l.receiver.pending ==> l.receiver.deadlineUs > 0)
  }

  // ---------- operations ----------

  const IDLE_SENDER := Sender([], 0, SenderIdle, 0, false, 0, 0, 0, 0, 0)

  function Open(l: Link, requestId: u32, channel: u8, params: Params): Link {
    Link(requestId, channel, params, IDLE_SENDER,
         l.receiver.(reassembling := false, pending := false), l.buffer, NoReason)
  }

  function Send(l: Link, message: seq<u8>, now: nat): Link {
    l.(sender := IDLE_SENDER.(message := message, phase := FirstFrame,
                              nextFrameUs := now, deadlineUs := now + TIMEOUT_US))
  }

  function Fail(l: Link, reason: Reason): Out {
    Out(l.(failure := reason, sender := l.sender.(phase := SenderIdle),
           receiver := l.receiver.(reassembling := false, pending := false)), Failed, [])
  }

  predicate IsFromPeer(p: Params, f: Frame) {
    && f.canId == p.responseId
    && |f.payload| > AddressSize(p)
    && (AddressSize(p) > 0 ==> f.payload[0] == p.rxAddress)
    && !f.echo
  }

  /** The protocol data unit a frame carries, after the address byte; filler included. */
  function Pdu(p: Params, f: Frame): seq<u8>
    requires |f.payload| > AddressSize(p)
  {
    f.payload[AddressSize(p)..]
  }

  function OnFrame(l: Link, f: Frame, now: nat, ok: bool): (o: Out)
    requires LinkOk(l)
    ensures LinkOk(o.link)
    ensures TimesPositive(l) && now > 0 ==> TimesPositive(o.link)
  {
    if !IsFromPeer(l.params, f) then Out(l, NoEvent, [])
    else
      var pdu := Pdu(l.params, f);
      var kind := pdu[0] / 16;
      if kind == 3 then OnFlowControl(l, pdu, now)
      else if kind == 0 then OnSingleFrame(l, pdu, |f.payload|)
      else if kind == 1 then OnFirstFrame(l, pdu, |f.payload|, now, ok)
      else if kind == 2 then OnConsecutiveFrame(l, pdu, now)
      else Out(l, NoEvent, [])
  }

  function OnFlowControl(l: Link, pdu: seq<u8>, now: nat): (o: Out)
    requires LinkOk(l) && |pdu| > 0
    ensures LinkOk(o.link)
    ensures TimesPositive(l) && now > 0 ==> TimesPositive(o.link)
  {
    var s := l.sender;
    var status := pdu[0] % 16;
    if s.phase != FlowControl || |pdu| < 3 then Out(l, NoEvent, [])
    else if status == 2 then Fail(l, Overflow)
    else if status == 1 then
      var waiting := l.(sender := s.(waitCount := s.waitCount + 1));
      if s.waitCount + 1 > WAIT_FRAMES_MAX then Fail(waiting, WaitLimit)
      else Out(waiting.(sender := waiting.sender.(deadlineUs := now + TIMEOUT_US)), NoEvent, [])
    else if status != 0 then Out(l, NoEvent, [])
    else
      Out(l.(sender := s.(waitCount := 0, blockRemaining := pdu[1], blockLimited := pdu[1] != 0,
                          stMinUs := StMinUs(pdu[2]), phase := ConsecutiveFrames,
                          nextFrameUs := now, deadlineUs := now + TIMEOUT_US)), NoEvent, [])
  }

  /** memcpy of `data` into the buffer at `at`. */
  function Splice(buffer: seq<u8>, at: nat, data: seq<u8>): (b: seq<u8>)
    requires at + |data| <= |buffer|
    ensures |b| == |buffer|
    ensures b[..at] == buffer[..at] && b[at..at + |data|] == data
  {
    buffer[..at] + data + buffer[at + |data|..]
  }

  function OnSingleFrame(l: Link, pdu: seq<u8>, frameLength: nat): (o: Out)
    requires LinkOk(l) && 0 < |pdu| <= frameLength <= |pdu| + 1
    ensures LinkOk(o.link)
    ensures TimesPositive(l) ==> TimesPositive(o.link)
  {
    var escaped := pdu[0] % 16 == 0 && frameLength > PAYLOAD_MAX_CLASSIC;
    var header: nat := if escaped then 2 else 1;
    var length: nat := if escaped then pdu[1] else pdu[0] % 16;
    if length == 0 || |pdu| < header + length then Out(l, NoEvent, [])
    else
      Out(l.(buffer := Splice(l.buffer, 0, pdu[header..header + length]),
             receiver := l.receiver.(length := length, reassembling := false, pending := false)), Message, [])
  }

  function OnFirstFrame(l: Link, pdu: seq<u8>, frameLength: nat, now: nat, ok: bool): (o: Out)
    requires LinkOk(l) && 0 < |pdu| <= frameLength <= |pdu| + 1 && |pdu| <= PAYLOAD_MAX_FD
    ensures LinkOk(o.link)
    ensures TimesPositive(l) && now > 0 ==> TimesPositive(o.link)
  {
    if frameLength < PAYLOAD_MAX_CLASSIC then Out(l, NoEvent, [])
    else
      var high: nat, low: nat := pdu[0] % 16, pdu[1];
      var length := high * 0x100 + low;
      if length == 0 then
        Fail(l, Overflow).(frames := if ok then [BuildFrame(l, FlowControlPdu(l.params, 2))] else [])
      else if length <= |pdu| - 2 then Out(l, NoEvent, [])
      else
        Out(l.(buffer := Splice(l.buffer, 0, pdu[2..]), receiver := l.receiver.(
               length := length, received := |pdu| - 2, sequence := 1, blockReceived := 0,
               reassembling := true, pending := true, flowControlDueUs := now)), NoEvent, [])
  }

  function OnConsecutiveFrame(l: Link, pdu: seq<u8>, now: nat): (o: Out)
    requires LinkOk(l) && |pdu| > 0
    ensures LinkOk(o.link)
    ensures TimesPositive(l) && now > 0 ==> TimesPositive(o.link)
  {
    var r := l.receiver;
    if !r.reassembling || r.pending then Out(l, NoEvent, [])
    else if pdu[0] % 16 != r.sequence then Fail(l, SequenceError)
    else
      var size := Min(r.length - r.received, |pdu| - 1);
      if size == 0 then Out(l, NoEvent, [])
      else
        var filled := l.(buffer := Splice(l.buffer, r.received, pdu[1..1 + size]));
        var taken := r.(received := r.received + size, sequence := (r.sequence + 1) % 16);
        if taken.received == taken.length then
          Out(filled.(receiver := taken.(reassembling := false)), Message, [])
        else
          var block := (r.blockReceived + 1) % 256;
          var counted := taken.(deadlineUs := now + TIMEOUT_US, blockReceived := block);
          if l.params.blockSize != 0 && block == l.params.blockSize then
            Out(filled.(receiver := counted.(blockReceived := 0, pending := true, flowControlDueUs := now)), NoEvent, [])
          else
            Out(filled.(receiver := counted), NoEvent, [])
  }

  function TickReceiver(l: Link, now: nat, ok: bool): (o: Out)
    requires LinkOk(l)
    ensures LinkOk(o.link)
    ensures TimesPositive(l) && now > 0 ==> TimesPositive(o.link)
  {
    var r := l.receiver;
    if !r.reassembling then Out(l, NoEvent, [])
    else if !r.pending then
      if now >= r.deadlineUs then Fail(l, ConsecutiveFrameTimeout) else Out(l, NoEvent, [])
    else if now < r.flowControlDueUs then Out(l, NoEvent, [])
    else if !ok then Out(l.(receiver := r.(flowControlDueUs := now + RETRY_US)), NoEvent, [])
    else
      Out(l.(receiver := r.(pending := false, deadlineUs := now + TIMEOUT_US)), NoEvent,
          [BuildFrame(l, FlowControlPdu(l.params, 0))])
  }

  function RetryLater(l: Link, now: nat): (o: Out)
    requires LinkOk(l)
    ensures LinkOk(o.link)
    ensures TimesPositive(l) && now > 0 ==> TimesPositive(o.link)
  {
    if now >= l.sender.deadlineUs then Fail(l, TxFailed)
    else Out(l.(sender := l.sender.(nextFrameUs := now + RETRY_US)), NoEvent, [])
  }

  function SendFirstFrame(l: Link, now: nat, ok: bool): (o: Out)
    requires LinkOk(l)
    ensures LinkOk(o.link)
    ensures TimesPositive(l) && now > 0 ==> TimesPositive(o.link)
  {
    if FitsSingle(l.params, |l.sender.message|) then SendSingleFrame(l, now, ok)
    else SendSegmentedFirstFrame(l, now, ok)
  }

  function SendSingleFrame(l: Link, now: nat, ok: bool): (o: Out)
    requires LinkOk(l) && FitsSingle(l.params, |l.sender.message|)
    ensures LinkOk(o.link)
    ensures TimesPositive(l) && now > 0 ==> TimesPositive(o.link)
  {
    if !ok then RetryLater(l, now)
    else Out(l.(sender := l.sender.(phase := SenderIdle)), Sent,
             [BuildFrame(l, SingleFramePdu(l.params, l.sender.message))])
  }

  function SendSegmentedFirstFrame(l: Link, now: nat, ok: bool): (o: Out)
    requires LinkOk(l) && !FitsSingle(l.params, |l.sender.message|)
    ensures LinkOk(o.link)
    ensures TimesPositive(l) && now > 0 ==> TimesPositive(o.link)
  {
    if !ok then RetryLater(l, now)
    else Out(l.(sender := l.sender.(offset := FirstCapacity(l.params), sequence := 1,
                                    phase := FlowControl, deadlineUs := now + TIMEOUT_US)), NoEvent,
             [BuildFrame(l, FirstFramePdu(l.params, l.sender.message))])
  }

  function SendConsecutiveFrame(l: Link, now: nat, ok: bool): (o: Out)
    requires LinkOk(l) && l.sender.phase.ConsecutiveFrames?
    ensures LinkOk(o.link)
    ensures TimesPositive(l) && now > 0 ==> TimesPositive(o.link)
  {
    var s := l.sender;
    if !ok then RetryLater(l, now)
    else
      var frames := [BuildFrame(l, ConsecutiveFramePdu(l.params, s))];
      var moved := s.(offset := s.offset + Min(ConsecutiveCapacity(l.params), |s.message| - s.offset),
                      sequence := (s.sequence + 1) % 16,
                      nextFrameUs := now + s.stMinUs, deadlineUs := now + TIMEOUT_US);
      if moved.offset == |s.message| then Out(l.(sender := moved.(phase := SenderIdle)), Sent, frames)
      else if !s.blockLimited then Out(l.(sender := moved), NoEvent, frames)
      else
        Out(l.(sender := moved.(blockRemaining := s.blockRemaining - 1,
                                phase := if s.blockRemaining == 1 then FlowControl else ConsecutiveFrames)),
            NoEvent, frames)
  }

  /** The next frame is due: the loop in tickSender goes round once more. */
  predicate SendDue(l: Link, now: nat) {
    now >= l.sender.nextFrameUs && (l.sender.phase.FirstFrame? || l.sender.phase.ConsecutiveFrames?)
  }

  function SendNext(l: Link, now: nat, ok: bool): (o: Out)
    requires LinkOk(l) && SendDue(l, now)
    ensures LinkOk(o.link)
    ensures TimesPositive(l) && now > 0 ==> TimesPositive(o.link)
  {
    if l.sender.phase.FirstFrame? then SendFirstFrame(l, now, ok) else SendConsecutiveFrame(l, now, ok)
  }

  function Answer(oks: seq<bool>): bool {
    oks != [] && oks[0]
  }

  function Rest(oks: seq<bool>): seq<bool> {
    if oks == [] then [] else oks[1..]
  }

  /** Up to `budget` frames, as long as they are due; `oks` answers each attempt. */
  function SendLoop(l: Link, now: nat, budget: nat, oks: seq<bool>): (o: Out)
    requires LinkOk(l)
    ensures LinkOk(o.link)
    ensures TimesPositive(l) && now > 0 ==> TimesPositive(o.link)
    decreases budget
  {
    if budget == 0 || !SendDue(l, now) then Out(l, NoEvent, [])
    else
      var first := SendNext(l, now, Answer(oks));
      if first.event != NoEvent then first
      else
        var rest := SendLoop(first.link, now, budget - 1, Rest(oks));
        rest.(frames := first.frames + rest.frames)
  }

  function TickSender(l: Link, now: nat, oks: seq<bool>): (o: Out)
    requires LinkOk(l)
    ensures LinkOk(o.link)
    ensures TimesPositive(l) && now > 0 ==> TimesPositive(o.link)
  {
    if l.sender.phase.FlowControl? then
      if now >= l.sender.deadlineUs then Fail(l, FlowControlTimeout) else Out(l, NoEvent, [])
    else SendLoop(l, now, FramesPerTick(), oks)
  }

  function Tick(l: Link, now: nat, ok: bool, oks: seq<bool>): (o: Out)
    requires LinkOk(l)
    ensures LinkOk(o.link)
    ensures TimesPositive(l) && now > 0 ==> TimesPositive(o.link)
  {
    var first := TickReceiver(l, now, ok);
    if first.event != NoEvent then first
    else
      var rest := TickSender(first.link, now, oks);
      rest.(frames := first.frames + rest.frames)
  }

  // ---------- wake time ----------

  function Earliest(current: nat, candidate: nat): nat {
    if candidate == 0 then current
    else if current == 0 || candidate < current then candidate
    else current
  }

  function NextWakeUs(l: Link): nat {
    var s, r := l.sender, l.receiver;
    var afterFrame := if s.phase.FirstFrame? || s.phase.ConsecutiveFrames? then Earliest(0, s.nextFrameUs) else 0;
    var afterSender := if s.phase.FlowControl? then Earliest(afterFrame, s.deadlineUs) else afterFrame;
    if !r.reassembling then afterSender
    else if r.pending then Earliest(afterSender, r.flowControlDueUs)
    else Earliest(afterSender, r.deadlineUs)
  }

  predicate HasTimer(l: Link) {
    !l.sender.phase.SenderIdle? || l.receiver.reassembling
  }

  /** No tick strictly before the wake time does anything. */
  ghost predicate QuietBeforeWake(l: Link)
    requires LinkOk(l)
  {
    forall now, ok, oks | 0 <= now < NextWakeUs(l) :: Tick(l, now, ok, oks) == Out(l, NoEvent, [])
  }

  lemma QuietIfPositive(l: Link, now: nat, ok: bool, oks: seq<bool>)
    requires LinkOk(l) && TimesPositive(l) && now < NextWakeUs(l)
    ensures Tick(l, now, ok, oks) == Out(l, NoEvent, [])
  {
  }

  lemma NotQuietIfZero(l: Link)
    requires LinkOk(l) && NextWakeUs(l) != 0 && !TimesPositive(l)
    ensures Tick(l, 0, true, [true]) != Out(l, NoEvent, [])
  {
  }

  /** Ticks before the wake time are no-ops exactly when the wake time leaves out no timer the link holds. */
  lemma WakeTimeSound(l: Link)
    requires LinkOk(l)
    ensures QuietBeforeWake(l) <==> NextWakeUs(l) == 0 || TimesPositive(l)
  {
    if TimesPositive(l) {
      forall now: nat, ok, oks | now < NextWakeUs(l) ensures Tick(l, now, ok, oks) == Out(l, NoEvent, []) {
        QuietIfPositive(l, now, ok, oks);
      }
    } else if NextWakeUs(l) != 0 {
      NotQuietIfZero(l);
    }
  }

  /** A first frame queued at time zero while an answer is being reassembled is sent before the wake time. */
  lemma ClockAtZeroMissesAFrame()
    ensures exists l: Link, now: nat ::
      LinkOk(l) && now < NextWakeUs(l) && Tick(l, now, true, [true]).frames != []
  {
    var p := Params(0x7E8, false, false, false, false, 0, 0, 0, 8, 0, 0);
    var buffer: seq<u8> := seq(MESSAGE_SIZE_MAX, _ => 0);
    var l := Link(0x7E0, 0, p, IDLE_SENDER, Receiver(20, 6, true, 1, 0, false, 0, 1000000), buffer, NoReason);
    var queued := Send(l, [0x3E], 0);
    assert LinkOk(queued) && 0 < NextWakeUs(queued);
    assert SendDue(queued, 0);
    assert SendLoop(queued, 0, FramesPerTick(), [true]).frames != [];
    assert Tick(queued, 0, true, [true]).frames != [];
  }
}
