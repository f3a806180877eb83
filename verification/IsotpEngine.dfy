/**
  The link as the agent runs it: an object whose sender, receiver and message
  buffer change in place, proved to follow the functions of module IsotpLink.
 */
module IsotpEngine {
  import opened Frames
  import opened IsotpLink
  import Spec = IsotpLink

  /** The bus takes a frame or refuses it; `sent` is what it took. */
  class Bus {
    var sent: seq<Frame>

    constructor ()
      ensures sent == []
    {
      sent := [];
    }

    method Transmit(frame: Frame) returns (ok: bool)
      modifies this
      ensures sent == old(sent) + if ok then [frame] else []
    {
      ok := *;
      if ok {
        sent := sent + [frame];
      }
    }
  }

  /** The table search of frameLength. */
  method SearchFrameLength(p: Params, size: nat) returns (length: nat)
    requires size <= PAYLOAD_MAX_FD
    ensures length == FrameLength(p, size)
  {
    if size <= PAYLOAD_MAX_CLASSIC {
      return if p.padded then PAYLOAD_MAX_CLASSIC else size;
    }
    var i := 0;
    while i + 1 < |FD_LENGTHS| && FD_LENGTHS[i] < size
      invariant 0 <= i < |FD_LENGTHS|
      invariant forall j | 0 <= j < i :: FD_LENGTHS[j] < size
    {
      i := i + 1;
    }
    return FD_LENGTHS[i];
  }

  lemma Appended(start: seq<Frame>, mid: seq<Frame>, end: seq<Frame>)
    requires start <= mid <= end
    ensures end[|start|..] == mid[|start|..] + end[|mid|..]
  {
  }

  // ---------- the send loop against SendLoop ----------

  function Then(first: Out, rest: Out): Out {
    rest.(frames := first.frames + rest.frames)
  }

  type Loop = (Link, nat, seq<bool>) -> Out

  /** SendLoop from a link, with a budget, under answers. */
  function Sending(now: nat): Loop {
    (l: Link, budget: nat, oks: seq<bool>) => if LinkOk(l) then SendLoop(l, now, budget, oks) else Out(l, NoEvent, [])
  }

  /** After `i` turns answered by `oks`, `done` is what the loop has done so far, whatever answers follow. */
  ghost predicate Progress(loop: Loop, start: Link, i: nat, oks: seq<bool>, done: Out)
    requires i <= FramesPerTick()
  {
    forall rest :: loop(start, FramesPerTick(), oks + rest)
      == if done.event == NoEvent then Then(done, loop(done.link, FramesPerTick() - i, rest)) else done
  }

  lemma ProgressStart(loop: Loop, start: Link)
    ensures Progress(loop, start, 0, [], Out(start, NoEvent, []))
  {
    forall rest: seq<bool>
      ensures loop(start, FramesPerTick(), [] + rest) == Then(Out(start, NoEvent, []), loop(start, FramesPerTick(), rest))
    {
      assert [] + rest == rest;
    }
  }

  /** One turn of the loop, answered `ok`, leads from `l` to `next`. */
  ghost predicate IsTurn(loop: Loop, l: Link, budget: nat, ok: bool, next: Out)
    requires budget > 0
  {
    forall rest :: loop(l, budget, [ok] + rest)
      == if next.event == NoEvent then Then(next, loop(next.link, budget - 1, rest)) else next
  }

  lemma TurnOfLoop(l: Link, now: nat, budget: nat, ok: bool, next: Out)
    requires LinkOk(l) && budget > 0 && SendDue(l, now) && next == SendNext(l, now, ok)
    ensures IsTurn(Sending(now), l, budget, ok, next)
  {
    forall rest: seq<bool>
      ensures SendLoop(l, now, budget, [ok] + rest)
           == if next.event == NoEvent then Then(next, SendLoop(next.link, now, budget - 1, rest)) else next
    {
      assert Answer([ok] + rest) == ok && Rest([ok] + rest) == rest;
    }
  }

  lemma ThenThen(a: Out, b: Out, c: Out)
    ensures Then(a, Then(b, c)) == Then(Then(a, b), c)
  {
    assert a.frames + (b.frames + c.frames) == a.frames + b.frames + c.frames;
  }

  lemma ProgressStep(loop: Loop, start: Link, i: nat, oks: seq<bool>, done: Out, ok: bool, next: Out)
    requires i < FramesPerTick() && Progress(loop, start, i, oks, done) && done.event == NoEvent
    requires IsTurn(loop, done.link, FramesPerTick() - i, ok, next)
    ensures Progress(loop, start, i + 1, oks + [ok], Then(done, next))
  {
    forall rest: seq<bool>
      ensures loop(start, FramesPerTick(), oks + [ok] + rest)
           == if next.event == NoEvent
              then Then(Then(done, next), loop(next.link, FramesPerTick() - (i + 1), rest))
              else Then(done, next)
    {
      assert oks + [ok] + rest == oks + ([ok] + rest);
      if next.event == NoEvent {
        ThenThen(done, next, loop(next.link, FramesPerTick() - (i + 1), rest));
      }
    }
  }

  lemma ProgressTurn(start: Link, now: nat, i: nat, oks: seq<bool>, done: Out, ok: bool, next: Out)
    requires LinkOk(done.link) && i < FramesPerTick() && Progress(Sending(now), start, i, oks, done)
    requires done.event == NoEvent && SendDue(done.link, now) && next == SendNext(done.link, now, ok)
    ensures Progress(Sending(now), start, i + 1, oks + [ok], Then(done, next))
  {
    TurnOfLoop(done.link, now, FramesPerTick() - i, ok, next);
    ProgressStep(Sending(now), start, i, oks, done, ok, next);
  }

  lemma ProgressEnd(start: Link, now: nat, i: nat, oks: seq<bool>, done: Out)
    requires LinkOk(start) && LinkOk(done.link) && i <= FramesPerTick() && Progress(Sending(now), start, i, oks, done)
    requires i == FramesPerTick() || done.event != NoEvent || !SendDue(done.link, now)
    ensures SendLoop(start, now, FramesPerTick(), oks) == done
  {
    assert oks + [] == oks;
    assert Sending(now)(start, FramesPerTick(), oks + [])
        == if done.event == NoEvent then Then(done, Sending(now)(done.link, FramesPerTick() - i, [])) else done;
    assert done.frames + [] == done.frames;
  }

  class LinkMachine {
    var requestId: u32
    var channel: u8
    var params: Params
    var sender: Sender
    var receiver: Receiver
    var failure: Reason
    const message: array<u8>
    const bus: Bus

    ghost function State(): Link
      reads this, message
    {
      Link(requestId, channel, params, sender, receiver, message[..], failure)
    }

    ghost predicate Valid()
      reads this, message
    {
      LinkOk(State())
    }

    constructor (bus: Bus)
      ensures Valid() && fresh(message) && this.bus == bus
      ensures !HasTimer(State()) && State() == Closed()
    {
      this.bus := bus;
      message := new u8[MESSAGE_SIZE_MAX](_ => 0);
      requestId, channel, failure := 0, 0, NoReason;
      params := Params(0, false, false, false, false, 0, 0, 0, 0, 0, 0);
      sender := IDLE_SENDER;
      receiver := Receiver(0, 0, false, 0, 0, false, 0, 0);
      new;
      assert message[..] == Closed().buffer;
    }

    method Open(requestId: u32, channel: u8, params: Params)
      requires Valid() && ParamsOk(params)
      modifies this
      ensures Valid() && State() == Spec.Open(old(State()), requestId, channel, params)
    {
      this.requestId, this.channel, this.params := requestId, channel, params;
      sender := IDLE_SENDER;
      receiver := receiver.(reassembling := false, pending := false);
      failure := NoReason;
    }

    method Send(message: seq<u8>, now: nat)
      requires Valid() && |message| <= MESSAGE_SIZE_MAX
      modifies this
      ensures Valid() && State() == Spec.Send(old(State()), message, now)
    {
      sender := IDLE_SENDER.(message := message, phase := FirstFrame,
                             nextFrameUs := now, deadlineUs := now + TIMEOUT_US);
    }

    method OnFrame(frame: Frame, now: nat) returns (event: Event, ghost ok: bool)
      requires Valid()
      modifies this, message, bus
      ensures old(bus.sent) <= bus.sent
      ensures Valid() && Out(State(), event, bus.sent[|old(bus.sent)|..]) == Spec.OnFrame(old(State()), frame, now, ok)
    {
      ok := false;
      if !IsFromPeer(params, frame) {
        return NoEvent, ok;
      }
      var pdu := Pdu(params, frame);
      var kind := pdu[0] / 16;
      if kind == 3 {
        event := OnFlowControl(pdu, now);
      } else if kind == 0 {
        event := OnSingleFrame(pdu, |frame.payload|);
      } else if kind == 1 {
        event, ok := OnFirstFrame(pdu, |frame.payload|, now);
      } else if kind == 2 {
        event := OnConsecutiveFrame(pdu, now);
      } else {
        event := NoEvent;
      }
    }

    method OnFlowControl(pdu: seq<u8>, now: nat) returns (event: Event)
      requires Valid() && |pdu| > 0
      modifies this
      ensures Valid() && Out(State(), event, []) == Spec.OnFlowControl(old(State()), pdu, now)
    {
      var status := pdu[0] % 16;
      if sender.phase != FlowControl || |pdu| < 3 {
        return NoEvent;
      }
      if status == 2 {
        event := Fail(Overflow);
        return;
      }
      if status == 1 {
        sender := sender.(waitCount := sender.waitCount + 1);
        if sender.waitCount > WAIT_FRAMES_MAX {
          event := Fail(WaitLimit);
          return;
        }
        sender := sender.(deadlineUs := now + TIMEOUT_US);
        return NoEvent;
      }
      if status != 0 {
        return NoEvent;
      }
      sender := sender.(waitCount := 0, blockRemaining := pdu[1], blockLimited := pdu[1] != 0,
                        stMinUs := StMinUs(pdu[2]), phase := ConsecutiveFrames,
                        nextFrameUs := now, deadlineUs := now + TIMEOUT_US);
      return NoEvent;
    }

    /** memcpy into the message buffer. */
    method Store(at: nat, data: seq<u8>)
      requires at + |data| <= message.Length
      modifies message
      ensures message[..] == Splice(old(message[..]), at, data)
    {
      forall i | 0 <= i < |data| {
        message[at + i] := data[i];
      }
    }

    method OnSingleFrame(pdu: seq<u8>, frameLength: nat) returns (event: Event)
      requires Valid() && 0 < |pdu| <= frameLength <= |pdu| + 1
      modifies this, message
      ensures Valid() && Out(State(), event, []) == Spec.OnSingleFrame(old(State()), pdu, frameLength)
    {
      var header: nat, length: nat := 1, pdu[0] % 16;
      if length == 0 && frameLength > PAYLOAD_MAX_CLASSIC {
        header, length := 2, pdu[1];
      }
      if length == 0 || |pdu| < header + length {
        return NoEvent;
      }
      Store(0, pdu[header..header + length]);
      receiver := receiver.(length := length, reassembling := false, pending := false);
      return Message;
    }

    method OnFirstFrame(pdu: seq<u8>, frameLength: nat, now: nat) returns (event: Event, ghost ok: bool)
      requires Valid() && 0 < |pdu| <= frameLength <= |pdu| + 1 && |pdu| <= PAYLOAD_MAX_FD
      modifies this, message, bus
      ensures old(bus.sent) <= bus.sent
      ensures Valid()
      ensures Out(State(), event, bus.sent[|old(bus.sent)|..])
           == Spec.OnFirstFrame(old(State()), pdu, frameLength, now, ok)
    {
      ok := false;
      if frameLength < PAYLOAD_MAX_CLASSIC {
        return NoEvent, ok;
      }
      var high: nat, low: nat := pdu[0] % 16, pdu[1];
      var length := high * 0x100 + low;
      if length == 0 {
        ok := TransmitFlowControl(2);
        event := Fail(Overflow);
        return;
      }
      if length <= |pdu| - 2 {
        return NoEvent, ok;
      }
      Store(0, pdu[2..]);
      receiver := receiver.(length := length, received := |pdu| - 2, sequence := 1, blockReceived := 0,
                            reassembling := true, pending := true, flowControlDueUs := now);
      return NoEvent, ok;
    }

    method OnConsecutiveFrame(pdu: seq<u8>, now: nat) returns (event: Event)
      requires Valid() && |pdu| > 0
      modifies this, message
      ensures Valid() && Out(State(), event, []) == Spec.OnConsecutiveFrame(old(State()), pdu, now)
    {
      if !receiver.reassembling || receiver.pending {
        return NoEvent;
      }
      if pdu[0] % 16 != receiver.sequence {
        event := Fail(SequenceError);
        return;
      }
      var size := Min(receiver.length - receiver.received, |pdu| - 1);
      if size == 0 {
        return NoEvent;
      }
      event := TakeSegment(pdu[1..1 + size], now);
    }

    method TakeSegment(data: seq<u8>, now: nat) returns (event: Event)
      requires Valid() && receiver.reassembling && 0 < |data| <= receiver.length - receiver.received
      modifies this, message
      ensures Valid() && message[..] == Splice(old(message[..]), old(receiver.received), data)
      ensures State() == old(State()).(receiver := receiver, buffer := message[..])
      ensures var r := old(receiver).(received := old(receiver.received) + |data|,
                                      sequence := (old(receiver.sequence) + 1) % 16);
        var block := (r.blockReceived + 1) % 256;
        if r.received == r.length then event == Message && receiver == r.(reassembling := false)
        else
          && event == NoEvent
          && receiver ==
             if params.blockSize != 0 && block == params.blockSize
             then r.(deadlineUs := now + TIMEOUT_US, blockReceived := 0, pending := true, flowControlDueUs := now)
             else r.(deadlineUs := now + TIMEOUT_US, blockReceived := block)
    {
      Store(receiver.received, data);
      receiver := receiver.(received := receiver.received + |data|, sequence := (receiver.sequence + 1) % 16);
      if receiver.received == receiver.length {
        receiver := receiver.(reassembling := false);
        return Message;
      }
      receiver := receiver.(deadlineUs := now + TIMEOUT_US, blockReceived := (receiver.blockReceived + 1) % 256);
      if params.blockSize != 0 && receiver.blockReceived == params.blockSize {
        receiver := receiver.(blockReceived := 0, pending := true, flowControlDueUs := now);
      }
      return NoEvent;
    }

    method Fail(reason: Reason) returns (event: Event)
      modifies this
      ensures Out(State(), event, []) == Spec.Fail(old(State()), reason)
    {
      failure := reason;
      sender := sender.(phase := SenderIdle);
      receiver := receiver.(reassembling := false, pending := false);
      return Failed;
    }

    method TransmitFlowControl(status: nat) returns (ok: bool)
      requires status < 16
      modifies bus
      ensures bus.sent == old(bus.sent) + if ok then [BuildFrame(State(), FlowControlPdu(params, status))] else []
    {
      ok := TransmitData([0x30 + status, params.blockSize, params.stMin]);
    }

    method TransmitData(pdu: seq<u8>) returns (ok: bool)
      requires AddressSize(params) + |pdu| <= PAYLOAD_MAX_FD
      modifies bus
      ensures bus.sent == old(bus.sent) + if ok then [BuildFrame(State(), pdu)] else []
    {
      var address := AddressSize(params);
      var length := SearchFrameLength(params, address + |pdu|);
      var head: seq<u8> := if address == 1 then [params.txAddress] else [];
      var payload := head + pdu + Filler(params, length - address - |pdu|);
      ok := bus.Transmit(Frame(requestId, channel, LinkFrameFlags(params), false, payload));
    }

    method Tick(now: nat) returns (event: Event, ghost ok: bool, ghost oks: seq<bool>)
      requires Valid()
      modifies this, bus
      ensures old(bus.sent) <= bus.sent
      ensures Valid() && Out(State(), event, bus.sent[|old(bus.sent)|..]) == Spec.Tick(old(State()), now, ok, oks)
      ensures old(TimesPositive(State()) && now < NextWakeUs(State())) ==>
        event == NoEvent && bus.sent == old(bus.sent) && State() == old(State())
    {
      Spec.WakeTimeSound(State());
      event, ok := TickReceiver(now);
      oks := [];
      if event == NoEvent {
        ghost var before := bus.sent;
        event, oks := TickSender(now);
        Appended(old(bus.sent), before, bus.sent);
      }
    }

    method TickReceiver(now: nat) returns (event: Event, ghost ok: bool)
      requires Valid()
      modifies this, bus
      ensures old(bus.sent) <= bus.sent
      ensures Valid() && Out(State(), event, bus.sent[|old(bus.sent)|..]) == Spec.TickReceiver(old(State()), now, ok)
    {
      ok := false;
      if !receiver.reassembling {
        return NoEvent, ok;
      }
      if !receiver.pending {
        if now >= receiver.deadlineUs {
          event := Fail(ConsecutiveFrameTimeout);
          return;
        }
        return NoEvent, ok;
      }
      if now < receiver.flowControlDueUs {
        return NoEvent, ok;
      }
      var taken := TransmitFlowControl(0);
      ok := taken;
      if !taken {
        receiver := receiver.(flowControlDueUs := now + RETRY_US);
        return NoEvent, ok;
      }
      receiver := receiver.(pending := false, deadlineUs := now + TIMEOUT_US);
      return NoEvent, ok;
    }

    method TickSender(now: nat) returns (event: Event, ghost oks: seq<bool>)
      requires Valid()
      modifies this, bus
      ensures old(bus.sent) <= bus.sent
      ensures Valid() && Out(State(), event, bus.sent[|old(bus.sent)|..]) == Spec.TickSender(old(State()), now, oks)
    {
      oks := [];
      if sender.phase == FlowControl {
        if now >= sender.deadlineUs {
          event := Fail(FlowControlTimeout);
          return;
        }
        return NoEvent, oks;
      }
      event, oks := SendFrames(now);
    }

    /** One turn of the send loop; `before` is what the bus had taken when the loop began. */
    method SendTurn(now: nat, ghost start: Link, ghost i: nat, ghost oks: seq<bool>, ghost done: Out, ghost before: seq<Frame>)
      returns (event: Event, ghost more: seq<bool>, ghost next: Out)
      requires Valid() && SendDue(State(), now) && LinkOk(start) && i < FramesPerTick()
      requires before <= bus.sent && done == Out(State(), NoEvent, bus.sent[|before|..])
      requires Progress(Sending(now), start, i, oks, done)
      modifies this, bus
      ensures Valid() && before <= bus.sent && next == Out(State(), event, bus.sent[|before|..])
      ensures Progress(Sending(now), start, i + 1, more, next)
    {
      ghost var sent := bus.sent;
      ghost var ok;
      event, ok := SendNext(now);
      ghost var o := Out(State(), event, bus.sent[|sent|..]);
      ProgressTurn(start, now, i, oks, done, ok, o);
      Appended(before, sent, bus.sent);
      next, more := Then(done, o), oks + [ok];
    }

    method SendWhileDue(now: nat) returns (event: Event, ghost i: nat, ghost oks: seq<bool>, ghost done: Out)
      requires Valid()
      modifies this, bus
      ensures Valid() && old(bus.sent) <= bus.sent && done == Out(State(), event, bus.sent[|old(bus.sent)|..])
      ensures i <= FramesPerTick() && Progress(Sending(now), old(State()), i, oks, done)
      ensures i == FramesPerTick() || event != NoEvent || !SendDue(State(), now)
    {
      oks, event, i := [], NoEvent, 0;
      var turns := 0;
      done := Out(State(), NoEvent, []);
      ProgressStart(Sending(now), State());
      while turns < FramesPerTick() && event == NoEvent
            && now >= sender.nextFrameUs && (sender.phase == FirstFrame || sender.phase == ConsecutiveFrames)
        invariant 0 <= turns == i <= FramesPerTick() && Valid() && old(bus.sent) <= bus.sent
        invariant done == Out(State(), event, bus.sent[|old(bus.sent)|..])
        invariant Progress(Sending(now), old(State()), i, oks, done)
      {
        event, oks, done := SendTurn(now, old(State()), i, oks, done, old(bus.sent));
        turns, i := turns + 1, i + 1;
      }
    }

    method SendFrames(now: nat) returns (event: Event, ghost oks: seq<bool>)
      requires Valid()
      modifies this, bus
      ensures old(bus.sent) <= bus.sent
      ensures Valid()
      ensures Out(State(), event, bus.sent[|old(bus.sent)|..]) == SendLoop(old(State()), now, FramesPerTick(), oks)
    {
      ghost var i, done;
      event, i, oks, done := SendWhileDue(now);
      ProgressEnd(old(State()), now, i, oks, done);
    }

    method SendNext(now: nat) returns (event: Event, ghost ok: bool)
      requires Valid() && SendDue(State(), now)
      modifies this, bus
      ensures old(bus.sent) <= bus.sent
      ensures Valid() && Out(State(), event, bus.sent[|old(bus.sent)|..]) == Spec.SendNext(old(State()), now, ok)
    {
      if sender.phase == FirstFrame {
        event, ok := SendFirstFrame(now);
      } else {
        event, ok := SendConsecutiveFrame(now);
      }
    }

    method RetryLater(now: nat) returns (event: Event)
      requires Valid()
      modifies this
      ensures Valid() && Out(State(), event, []) == Spec.RetryLater(old(State()), now)
    {
      if now >= sender.deadlineUs {
        event := Fail(TxFailed);
        return;
      }
      sender := sender.(nextFrameUs := now + RETRY_US);
      return NoEvent;
    }

    method SendFirstFrame(now: nat) returns (event: Event, ghost ok: bool)
      requires Valid()
      modifies this, bus
      ensures old(bus.sent) <= bus.sent
      ensures Valid() && Out(State(), event, bus.sent[|old(bus.sent)|..]) == Spec.SendFirstFrame(old(State()), now, ok)
    {
      if |sender.message| <= ClassicSingleCapacity(params) || |sender.message| <= EscapeSingleCapacity(params) {
        event, ok := SendSingleFrame(now);
      } else {
        event, ok := SendSegmentedFirstFrame(now);
      }
    }

    method SendSingleFrame(now: nat) returns (event: Event, ghost ok: bool)
      requires Valid() && FitsSingle(params, |sender.message|)
      modifies this, bus
      ensures old(bus.sent) <= bus.sent
      ensures Valid() && Out(State(), event, bus.sent[|old(bus.sent)|..]) == Spec.SendSingleFrame(old(State()), now, ok)
    {
      var header: seq<u8> := [|sender.message|];
      if |sender.message| > ClassicSingleCapacity(params) {
        header := [0, |sender.message|];
      }
      var taken := TransmitData(header + sender.message);
      ok := taken;
      if !taken {
        event := RetryLater(now);
        return;
      }
      sender := sender.(phase := SenderIdle);
      return Sent, ok;
    }

    method SendSegmentedFirstFrame(now: nat) returns (event: Event, ghost ok: bool)
      requires Valid() && !FitsSingle(params, |sender.message|)
      modifies this, bus
      ensures old(bus.sent) <= bus.sent
      ensures Valid()
      ensures Out(State(), event, bus.sent[|old(bus.sent)|..]) == Spec.SendSegmentedFirstFrame(old(State()), now, ok)
    {
      var size := FirstCapacity(params);
      var length := |sender.message|;
      var taken := TransmitData([0x10 + length / 0x100, length % 0x100] + sender.message[..size]);
      ok := taken;
      if !taken {
        event := RetryLater(now);
        return;
      }
      sender := sender.(offset := size, sequence := 1, phase := FlowControl, deadlineUs := now + TIMEOUT_US);
      return NoEvent, ok;
    }

    method SendConsecutiveFrame(now: nat) returns (event: Event, ghost ok: bool)
      requires Valid() && sender.phase.ConsecutiveFrames?
      modifies this, bus
      ensures old(bus.sent) <= bus.sent
      ensures Valid()
      ensures Out(State(), event, bus.sent[|old(bus.sent)|..]) == Spec.SendConsecutiveFrame(old(State()), now, ok)
    {
      var size := Min(ConsecutiveCapacity(params), |sender.message| - sender.offset);
      var taken := TransmitData([0x20 + sender.sequence] + sender.message[sender.offset..sender.offset + size]);
      ok := taken;
      if !taken {
        event := RetryLater(now);
        return;
      }
      event := SegmentSent(size, now);
    }

    /** The bus has taken a segment of `size` bytes. */
    method SegmentSent(size: nat, now: nat) returns (event: Event)
      requires Valid() && sender.phase.ConsecutiveFrames?
      requires size == Min(ConsecutiveCapacity(params), |sender.message| - sender.offset)
      modifies this
      ensures Valid() && Out(State(), event, []) == Spec.SendConsecutiveFrame(old(State()), now, true).(frames := [])
    {
      sender := sender.(offset := sender.offset + size, sequence := (sender.sequence + 1) % 16,
                        nextFrameUs := now + sender.stMinUs, deadlineUs := now + TIMEOUT_US);
      if sender.offset == |sender.message| {
        sender := sender.(phase := SenderIdle);
        return Sent;
      }
      if !sender.blockLimited {
        return NoEvent;
      }
      sender := sender.(blockRemaining := sender.blockRemaining - 1);
      if sender.blockRemaining == 0 {
        sender := sender.(phase := FlowControl);
      }
      return NoEvent;
    }

    method NextWake() returns (wake: nat)
      ensures wake == NextWakeUs(State())
    {
      wake := 0;
      if sender.phase == FirstFrame || sender.phase == ConsecutiveFrames {
        wake := Earliest(wake, sender.nextFrameUs);
      }
      if sender.phase == FlowControl {
        wake := Earliest(wake, sender.deadlineUs);
      }
      if !receiver.reassembling {
        return;
      }
      wake := Earliest(wake, if receiver.pending then receiver.flowControlDueUs else receiver.deadlineUs);
    }

    /** The reassembled message as a frame the runner can match: its first 64 bytes. */
    method MessageFrame() returns (frame: Frame)
      requires Valid()
      ensures frame == Frame(params.responseId, channel, 0, false, State().buffer[..Min(receiver.length, PAYLOAD_MAX_FD)])
    {
      frame := Frame(params.responseId, channel, 0, false, message[..Min(receiver.length, PAYLOAD_MAX_FD)]);
    }
  }
}
