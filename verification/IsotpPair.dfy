/**
  Two ISO-TP links facing each other over lossless FIFO channels, each sending
  one message to the other at the same time, under every interleaving of ticks
  and deliveries, with refused transmissions and timeouts at any point.
 */
module IsotpPair {
  import opened Frames
  import opened IsotpLink

  /** `ab` and `ba` are the frames in flight; `atA` and `atB` the messages each side reassembled. */
  datatype World = World(
    a: Link, b: Link, ab: seq<Frame>, ba: seq<Frame>,
    atA: seq<seq<u8>>, atB: seq<seq<u8>>)
  {
    function Swap(): World {
      World(b, a, ba, ab, atB, atA)
    }
  }

  datatype Action =
    | TickA(now: nat, ok: bool, oks: seq<bool>)
    | TickB(now: nat, ok: bool, oks: seq<bool>)
    | DeliverToA(now: nat, ok: bool)
    | DeliverToB(now: nat, ok: bool)

  function Reassembled(o: Out): seq<seq<u8>>
    requires LinkOk(o.link)
  {
    if o.event == Message then [o.link.buffer[..o.link.receiver.length]] else []
  }

  function TickLeft(w: World, now: nat, ok: bool, oks: seq<bool>): World
    requires LinkOk(w.a)
  {
    var o := Tick(w.a, now, ok, oks);
    w.(a := o.link, ab := w.ab + o.frames)
  }

  function DeliverRight(w: World, now: nat, ok: bool): World
    requires LinkOk(w.b)
  {
    if w.ab == [] then w
    else
      var o := OnFrame(w.b, w.ab[0], now, ok);
      w.(b := o.link, ab := w.ab[1..], ba := w.ba + o.frames, atB := w.atB + Reassembled(o))
  }

  function Next(w: World, action: Action): World
    requires LinkOk(w.a) && LinkOk(w.b)
  {
    match action
    case TickA(now, ok, oks) => TickLeft(w, now, ok, oks)
    case TickB(now, ok, oks) => TickLeft(w.Swap(), now, ok, oks).Swap()
    case DeliverToB(now, ok) => DeliverRight(w, now, ok)
    case DeliverToA(now, ok) => DeliverRight(w.Swap(), now, ok).Swap()
  }

  function Run(w: World, actions: seq<Action>): World
    requires LinkOk(w.a) && LinkOk(w.b)
    decreases |actions|
  {
    if actions == [] then w else Run(Next(w, actions[0]), actions[1..])
  }

  // ---------- where the frames go ----------

  predicate Mirrored(a: Link, b: Link) {
    && a.params.responseId == b.requestId && b.params.responseId == a.requestId
    && AddressSize(a.params) == AddressSize(b.params)
    && (AddressSize(a.params) == 1 ==>
          a.params.txAddress == b.params.rxAddress && b.params.txAddress == a.params.rxAddress)
  }

  /** A data length a CAN FD frame really has: filling never lengthens a full frame. */
  predicate LegalDataLength(p: Params) {
    8 <= TxDataLength(p) && IsFrameLength(TxDataLength(p))
  }

  predicate IsGrantUnit(address: nat, f: Frame) {
    |f.payload| > address && f.payload[address] / 16 == 3
  }

  /** The flow control frames among `fs`, or the frames that are not. */
  function Select(fs: seq<Frame>, address: nat, grants: bool): seq<Frame> {
    if fs == [] then []
    else if IsGrantUnit(address, fs[0]) == grants then [fs[0]] + Select(fs[1..], address, grants)
    else Select(fs[1..], address, grants)
  }

  lemma {:induction false} SelectAppend(fs: seq<Frame>, gs: seq<Frame>, address: nat, grants: bool)
    ensures Select(fs + gs, address, grants) == Select(fs, address, grants) + Select(gs, address, grants)
    decreases |fs|
  {
    if fs == [] {
      assert fs + gs == gs;
    } else {
      assert (fs + gs)[0] == fs[0] && (fs + gs)[1..] == fs[1..] + gs;
      SelectAppend(fs[1..], gs, address, grants);
    }
  }

  lemma SelectOne(fs: seq<Frame>, address: nat, grants: bool)
    requires |fs| == 1
    ensures Select(fs, address, grants) == if IsGrantUnit(address, fs[0]) == grants then fs else []
  {
    assert fs[1..] == [];
  }

  // ---------- what a frame in flight carries ----------

  ghost predicate CarriesSingle(q: Params, f: Frame, m: seq<u8>) {
    && IsFromPeer(q, f)
    && var u := Pdu(q, f);
    && |u| >= 1 && u[0] / 16 == 0
    && if u[0] == 0 then |f.payload| > 8 && |u| >= 2 + |m| && u[1] == |m| && u[2..2 + |m|] == m
       else u[0] == |m| && |u| >= 1 + |m| && u[1..1 + |m|] == m
  }

  ghost predicate CarriesFirst(p: Params, q: Params, f: Frame, m: seq<u8>)
    requires ParamsOk(p)
  {
    && IsFromPeer(q, f) && |f.payload| >= 8
    && FirstCapacity(p) < |m|
    && var u := Pdu(q, f);
    && |u| == 2 + FirstCapacity(p)
    && u[0] == 0x10 + |m| / 0x100 && u[1] == |m| % 0x100
    && u[2..] == m[..FirstCapacity(p)]
  }

  function SegmentSize(p: Params, m: seq<u8>, offset: nat): nat
    requires ParamsOk(p) && offset <= |m|
  {
    Min(ConsecutiveCapacity(p), |m| - offset)
  }

  ghost predicate CarriesSegment(p: Params, q: Params, f: Frame, m: seq<u8>, offset: nat, sequence: nat)
    requires ParamsOk(p)
  {
    && offset < |m| && IsFromPeer(q, f)
    && var u, k := Pdu(q, f), SegmentSize(p, m, offset);
    && |u| >= 1 + k && u[0] == 0x20 + sequence
    && u[1..1 + k] == m[offset..offset + k]
    && (|u| == 1 + k || offset + k == |m|)
  }

  /** The frames carry the message from `offset` on, in order, up to `end`. */
  ghost predicate InFlight(p: Params, q: Params, fs: seq<Frame>, m: seq<u8>,
                           offset: nat, sequence: nat, end: nat, endSequence: nat)
    requires ParamsOk(p)
    decreases |fs|
  {
    if fs == [] then offset == end && sequence == endSequence
    else
      && CarriesSegment(p, q, fs[0], m, offset, sequence)
      && InFlight(p, q, fs[1..], m, offset + SegmentSize(p, m, offset), (sequence + 1) % 16, end, endSequence)
  }

  lemma {:induction false} InFlightAppend(p: Params, q: Params, fs: seq<Frame>, f: Frame, m: seq<u8>,
                                          offset: nat, sequence: nat, end: nat, endSequence: nat)
    requires ParamsOk(p)
    requires InFlight(p, q, fs, m, offset, sequence, end, endSequence)
    requires CarriesSegment(p, q, f, m, end, endSequence)
    ensures InFlight(p, q, fs + [f], m, offset, sequence, end + SegmentSize(p, m, end), (endSequence + 1) % 16)
    decreases |fs|
  {
    if fs == [] {
      assert (fs + [f])[1..] == [];
    } else {
      assert (fs + [f])[1..] == fs[1..] + [f];
      InFlightAppend(p, q, fs[1..], f, m, offset + SegmentSize(p, m, offset), (sequence + 1) % 16, end, endSequence);
    }
  }

  predicate IsSegment(q: Params, f: Frame) {
    IsFromPeer(q, f) && Pdu(q, f)[0] / 16 == 2
  }

  lemma {:induction false} InFlightAreSegments(p: Params, q: Params, fs: seq<Frame>, m: seq<u8>,
                                               offset: nat, sequence: nat, end: nat, endSequence: nat)
    requires ParamsOk(p) && sequence < 16
    requires InFlight(p, q, fs, m, offset, sequence, end, endSequence)
    ensures forall f | f in fs :: IsSegment(q, f)
    decreases |fs|
  {
    if fs != [] {
      InFlightAreSegments(p, q, fs[1..], m, offset + SegmentSize(p, m, offset), (sequence + 1) % 16, end, endSequence);
    }
  }

  /** A flow control frame that lets the sender go on. */
  predicate IsGrant(p: Params, f: Frame) {
    IsFromPeer(p, f) && |Pdu(p, f)| >= 3 && Pdu(p, f)[0] == 0x30
  }

  /** Address byte and filler are transparent: the peer reads the unit, then filler up to the frame length. */
  lemma FrameReachesPeer(l: Link, q: Params, pdu: seq<u8>)
    requires 0 < |pdu| && AddressSize(l.params) + |pdu| <= PAYLOAD_MAX_FD
    requires q.responseId == l.requestId && AddressSize(q) == AddressSize(l.params)
    requires AddressSize(q) == 1 ==> q.rxAddress == l.params.txAddress
    ensures IsFromPeer(q, BuildFrame(l, pdu))
    ensures |BuildFrame(l, pdu).payload| == FrameLength(l.params, AddressSize(q) + |pdu|)
    ensures Pdu(q, BuildFrame(l, pdu))
         == pdu + Filler(l.params, FrameLength(l.params, AddressSize(q) + |pdu|) - AddressSize(q) - |pdu|)
    ensures Pdu(q, BuildFrame(l, pdu))[0] == pdu[0] == BuildFrame(l, pdu).payload[AddressSize(q)]
  {
  }

  // ---------- one direction ----------

  /** The bytes from `s` reach the buffer behind `r`; `data` and `grants` are in flight between the two. */
  datatype Lane = Lane(
    p: Params, q: Params, s: Sender, r: Receiver, buffer: seq<u8>,
    data: seq<Frame>, grants: seq<Frame>, got: seq<seq<u8>>)

  predicate Stopped(s: Sender) {
    s.phase.FlowControl? || s.phase.SenderIdle?
  }

  ghost predicate NotSent(n: Lane) {
    n.s.phase.FirstFrame? && n.data == [] && n.grants == [] && !n.r.reassembling && n.got == []
  }

  ghost predicate SingleOnWire(n: Lane) {
    && n.s.phase.SenderIdle? && |n.data| == 1 && CarriesSingle(n.q, n.data[0], n.s.message)
    && n.s.message != [] && n.grants == [] && !n.r.reassembling && n.got == []
  }

  ghost predicate FirstOnWire(n: Lane)
    requires ParamsOk(n.p)
  {
    && Stopped(n.s) && |n.data| == 1 && CarriesFirst(n.p, n.q, n.data[0], n.s.message)
    && n.s.offset == FirstCapacity(n.p) && n.s.sequence == 1
    && n.grants == [] && !n.r.reassembling && n.got == []
  }

  ghost predicate Holding(n: Lane) {
    && n.r.reassembling && n.r.length == |n.s.message| && n.r.received < n.r.length
    && n.r.length <= |n.buffer|
    && n.buffer[..n.r.received] == n.s.message[..n.r.received]
    && n.got == []
  }

  /** Receiver and sender stand at the same byte, with a block boundary between them. */
  ghost predicate AtBoundary(n: Lane) {
    && Stopped(n.s) && n.data == [] && n.r.blockReceived == 0
    && n.s.offset == n.r.received && n.s.sequence == n.r.sequence
  }

  ghost predicate GrantDue(n: Lane) {
    Holding(n) && AtBoundary(n) && n.r.pending && n.grants == []
  }

  ghost predicate GrantOnWire(n: Lane) {
    && Holding(n) && AtBoundary(n) && !n.r.pending && |n.grants| == 1
    && IsGrant(n.p, n.grants[0]) && Pdu(n.p, n.grants[0])[1] == n.q.blockSize
  }

  /** The block the receiver granted is split between what is to send, in flight and counted. */
  ghost predicate BlockShared(n: Lane) {
    match n.s.phase
    case FirstFrame => false
    case ConsecutiveFrames =>
      && n.s.blockLimited == (n.q.blockSize != 0)
      && (n.q.blockSize != 0 ==> n.s.blockRemaining + |n.data| + n.r.blockReceived == n.q.blockSize)
    case FlowControl =>
      n.q.blockSize != 0 && n.data != [] && |n.data| + n.r.blockReceived == n.q.blockSize
    case SenderIdle =>
      n.q.blockSize != 0 ==> |n.data| + n.r.blockReceived <= n.q.blockSize
  }

  ghost predicate Streaming(n: Lane)
    requires ParamsOk(n.p)
  {
    && Holding(n) && !n.r.pending && n.grants == []
    && InFlight(n.p, n.q, n.data, n.s.message, n.r.received, n.r.sequence, n.s.offset, n.s.sequence)
    && BlockShared(n)
  }

  /** Delivered, or given up by a timeout on either side: nothing in flight can start a message. */
  ghost predicate Over(n: Lane) {
    && !n.s.phase.FirstFrame? && !n.r.reassembling
    && (forall f | f in n.data :: IsSegment(n.q, f))
    && (forall f | f in n.grants :: IsGrant(n.p, f))
    && (n.got == [] || n.got == [n.s.message])
  }

  predicate LaneOk(n: Lane) {
    && ParamsOk(n.p) && LegalDataLength(n.p) && SenderOk(n.s) && ReceiverOk(n.r)
    && |n.buffer| == MESSAGE_SIZE_MAX && (n.s.message != [] || n.s.phase.SenderIdle?)
  }

  ghost predicate LaneInv(n: Lane) {
    && LaneOk(n)
    && (NotSent(n) || SingleOnWire(n) || FirstOnWire(n) || GrantDue(n) || GrantOnWire(n) || Streaming(n) || Over(n))
  }

  /** Giving up on either side leaves the lane in order. */
  lemma GivingUp(n: Lane)
    requires LaneInv(n)
    ensures LaneInv(n.(s := n.s.(phase := SenderIdle)))
    ensures LaneInv(n.(r := n.r.(reassembling := false, pending := false)))
  {
    var off := n.(r := n.r.(reassembling := false, pending := false));
    if Streaming(n) {
      InFlightAreSegments(n.p, n.q, n.data, n.s.message, n.r.received, n.r.sequence, n.s.offset, n.s.sequence);
    }
  }

  // ---------- the sending side of a lane ----------

  predicate Faces(l: Link, q: Params) {
    && q.responseId == l.requestId && AddressSize(q) == AddressSize(l.params)
    && (AddressSize(q) == 1 ==> q.rxAddress == l.params.txAddress)
  }

  /** Only the sender moved, or the link gave up both its sides. */
  predicate OnlySender(l: Link, o: Out) {
    && o.link.requestId == l.requestId && o.link.channel == l.channel && o.link.params == l.params
    && o.link.buffer == l.buffer
    && if o.event == Failed then o.link.receiver == l.receiver.(reassembling := false, pending := false)
       else o.link.receiver == l.receiver && o.link.failure == l.failure
  }

  predicate TimedOut(reason: Reason) {
    reason.TxFailed? || reason.FlowControlTimeout? || reason.ConsecutiveFrameTimeout?
  }

  lemma SingleSent(l: Link, n: Lane, now: nat)
    requires LaneInv(n) && LinkOk(l) && n.s == l.sender && n.p == l.params && Faces(l, n.q)
    requires l.sender.phase.FirstFrame? && FitsSingle(l.params, |l.sender.message|)
    ensures var o := SendSingleFrame(l, now, true);
      && LaneInv(n.(s := o.link.sender, data := n.data + o.frames))
      && |o.frames| == 1 && !IsGrantUnit(AddressSize(n.q), o.frames[0])
  {
    var m := l.sender.message;
    var u := SingleFramePdu(l.params, m);
    FrameReachesPeer(l, n.q, u);
    var f := BuildFrame(l, u);
    assert n.data + [f] == [f];
    assert u[if |m| > ClassicSingleCapacity(l.params) then 2 else 1..] == m;
    assert CarriesSingle(n.q, f, m);
  }

  lemma FirstSent(l: Link, n: Lane, now: nat)
    requires LaneInv(n) && LinkOk(l) && n.s == l.sender && n.p == l.params && Faces(l, n.q)
    requires l.sender.phase.FirstFrame? && !FitsSingle(l.params, |l.sender.message|)
    ensures var o := SendSegmentedFirstFrame(l, now, true);
      && LaneInv(n.(s := o.link.sender, data := n.data + o.frames))
      && |o.frames| == 1 && !IsGrantUnit(AddressSize(n.q), o.frames[0])
  {
    var m := l.sender.message;
    var u := FirstFramePdu(l.params, m);
    FrameReachesPeer(l, n.q, u);
    var f := BuildFrame(l, u);
    assert n.data + [f] == [f];
    assert Filler(l.params, 0) == [];
    assert CarriesFirst(n.p, n.q, f, m);
  }

  /** With a legal data length, a consecutive frame carries exactly the next segment. */
  lemma SegmentFrame(l: Link, q: Params)
    requires LinkOk(l) && LegalDataLength(l.params) && Faces(l, q) && l.sender.phase.ConsecutiveFrames?
    ensures var f := BuildFrame(l, ConsecutiveFramePdu(l.params, l.sender));
      && CarriesSegment(l.params, q, f, l.sender.message, l.sender.offset, l.sender.sequence)
      && !IsGrantUnit(AddressSize(q), f) && IsSegment(q, f)
  {
    FrameReachesPeer(l, q, ConsecutiveFramePdu(l.params, l.sender));
  }

  /** Sending the next segment hands one frame of the block from the sender to the channel. */
  lemma SegmentStreams(n: Lane, f: Frame, s: Sender)
    requires LaneOk(n) && Streaming(n) && n.s.phase.ConsecutiveFrames?
    requires CarriesSegment(n.p, n.q, f, n.s.message, n.s.offset, n.s.sequence)
    requires s.message == n.s.message && s.sequence == (n.s.sequence + 1) % 16
    requires s.offset == n.s.offset + SegmentSize(n.p, n.s.message, n.s.offset)
    requires s.blockLimited == n.s.blockLimited
    requires
      || s.phase.SenderIdle?
      || (!s.blockLimited && s.phase.ConsecutiveFrames?)
      || (s.blockLimited && s.blockRemaining == n.s.blockRemaining - 1
          && s.phase == if n.s.blockRemaining == 1 then FlowControl else ConsecutiveFrames)
    ensures Streaming(n.(s := s, data := n.data + [f]))
  {
    InFlightAppend(n.p, n.q, n.data, f, s.message, n.r.received, n.r.sequence, n.s.offset, n.s.sequence);
  }

  lemma SegmentSent(l: Link, n: Lane, now: nat)
    requires LaneInv(n) && LinkOk(l) && n.s == l.sender && n.p == l.params && Faces(l, n.q)
    requires l.sender.phase.ConsecutiveFrames?
    ensures var o := SendConsecutiveFrame(l, now, true);
      && LaneInv(n.(s := o.link.sender, data := n.data + o.frames))
      && |o.frames| == 1 && !IsGrantUnit(AddressSize(n.q), o.frames[0])
  {
    SegmentFrame(l, n.q);
    var o := SendConsecutiveFrame(l, now, true);
    if Streaming(n) {
      SegmentStreams(n, o.frames[0], o.link.sender);
      assert o.frames == [o.frames[0]];
    } else {
      assert Over(n);
      assert Over(n.(s := o.link.sender, data := n.data + o.frames));
    }
  }

  /** A step of the sending side the lane can take. */
  ghost predicate GoodSend(l: Link, n: Lane, o: Out) {
    && LinkOk(o.link) && o.link.sender.message == l.sender.message
    && LaneInv(n.(s := o.link.sender, data := n.data + o.frames))
    && |o.frames| <= 1 && (forall f | f in o.frames :: !IsGrantUnit(AddressSize(n.q), f))
    && OnlySender(l, o) && (o.event == Failed ==> TimedOut(o.link.failure))
  }

  lemma SendRefused(l: Link, n: Lane, now: nat)
    requires LaneInv(n) && LinkOk(l) && n.s == l.sender && n.p == l.params && SendDue(l, now)
    ensures GoodSend(l, n, SendNext(l, now, false))
  {
    var o := SendNext(l, now, false);
    assert n.data + o.frames == n.data;
    GivingUp(n);
    if o.event == NoEvent {
      RetryKeeps(n, now + RETRY_US);
    }
  }

  lemma SenderSends(l: Link, n: Lane, now: nat, ok: bool)
    requires LaneInv(n) && LinkOk(l) && n.s == l.sender && n.p == l.params && Faces(l, n.q)
    requires SendDue(l, now)
    ensures GoodSend(l, n, SendNext(l, now, ok))
  {
    if !ok {
      SendRefused(l, n, now);
    } else if l.sender.phase.ConsecutiveFrames? {
      SegmentSent(l, n, now);
    } else if FitsSingle(l.params, |l.sender.message|) {
      SingleSent(l, n, now);
    } else {
      FirstSent(l, n, now);
    }
  }

  /** The lane says nothing about time. */
  lemma RetryKeeps(n: Lane, at: nat)
    requires LaneInv(n)
    ensures LaneInv(n.(s := n.s.(nextFrameUs := at)))
  {
  }

  lemma GrantArrives(l: Link, n: Lane, now: nat)
    requires LaneInv(n) && LinkOk(l) && n.s == l.sender && n.p == l.params && n.grants != []
    ensures IsGrant(n.p, n.grants[0])
    ensures var o := OnFlowControl(l, Pdu(n.p, n.grants[0]), now);
      && LaneInv(n.(s := o.link.sender, grants := n.grants[1..]))
      && OnlySender(l, o) && o.event == NoEvent && o.frames == []
  {
    assert GrantOnWire(n) || Over(n);
    assert IsGrant(n.p, n.grants[0]);
    var o := OnFlowControl(l, Pdu(n.p, n.grants[0]), now);
    var moved := n.(s := o.link.sender, grants := n.grants[1..]);
    if GrantOnWire(n) {
      assert Streaming(moved);
    } else {
      assert Over(moved);
    }
  }

  // ---------- the receiving side of a lane ----------

  predicate OnlyReceiver(l: Link, o: Out) {
    && o.link.requestId == l.requestId && o.link.channel == l.channel && o.link.params == l.params
    && if o.event == Failed then o.link.sender == l.sender.(phase := SenderIdle)
       else o.link.sender == l.sender && o.link.failure == l.failure
  }

  /** A step of the receiving side on its own time the lane can take. */
  ghost predicate GoodGrant(l: Link, n: Lane, o: Out) {
    && LinkOk(o.link) && o.link.sender.message == l.sender.message
    && LaneInv(n.(r := o.link.receiver, grants := n.grants + o.frames))
    && |o.frames| <= 1 && (forall f | f in o.frames :: IsGrantUnit(AddressSize(n.p), f))
    && OnlyReceiver(l, o) && o.link.buffer == l.buffer
    && (o.event == Failed ==> TimedOut(o.link.failure))
  }

  lemma ReceiverTicks(l: Link, n: Lane, now: nat, ok: bool)
    requires LaneInv(n) && LinkOk(l) && n.r == l.receiver && n.q == l.params && n.buffer == l.buffer && Faces(l, n.p)
    ensures GoodGrant(l, n, TickReceiver(l, now, ok))
  {
    var o := TickReceiver(l, now, ok);
    var moved := n.(r := o.link.receiver, grants := n.grants + o.frames);
    if o.event == Failed {
      assert n.grants + o.frames == n.grants;
      GivingUp(n);
    } else if o.frames != [] {
      FrameReachesPeer(l, n.p, FlowControlPdu(l.params, 0));
      assert GrantDue(n);
      assert moved.grants == o.frames;
      assert GrantOnWire(moved);
    } else {
      assert n.grants + o.frames == n.grants;
    }
  }

  /** The lane once the frame at its front has been taken with outcome `o`. */
  function Absorb(n: Lane, o: Out): Lane
    requires LinkOk(o.link) && n.data != []
  {
    n.(r := o.link.receiver, buffer := o.link.buffer, data := n.data[1..], got := n.got + Reassembled(o))
  }

  lemma SingleArrives(l: Link, n: Lane, now: nat, ok: bool)
    requires LaneInv(n) && LinkOk(l) && n.r == l.receiver && n.q == l.params && n.buffer == l.buffer
    requires SingleOnWire(n)
    ensures var o := OnFrame(l, n.data[0], now, ok);
      && LaneInv(Absorb(n, o))
      && OnlyReceiver(l, o) && o.event != Failed && o.frames == []
      && Absorb(n, o).got == [n.s.message]
  {
    var o := OnFrame(l, n.data[0], now, ok);
    var u := Pdu(n.q, n.data[0]);
    assert o == OnSingleFrame(l, u, |n.data[0].payload|);
    assert o.event == Message && o.link.buffer[..|n.s.message|] == n.s.message;
    assert Over(Absorb(n, o));
  }

  lemma FirstArrives(l: Link, n: Lane, now: nat, ok: bool)
    requires LaneInv(n) && LinkOk(l) && n.r == l.receiver && n.q == l.params && n.buffer == l.buffer
    requires FirstOnWire(n)
    ensures var o := OnFrame(l, n.data[0], now, ok);
      && LaneInv(Absorb(n, o))
      && OnlyReceiver(l, o) && o.event != Failed && o.frames == []
      && o.link.receiver.reassembling
  {
    var o := OnFrame(l, n.data[0], now, ok);
    var u := Pdu(n.q, n.data[0]);
    assert o == OnFirstFrame(l, u, |n.data[0].payload|, now, ok);
    assert u[0] % 16 == |n.s.message| / 0x100;
    var moved := Absorb(n, o);
    assert moved.buffer[..moved.r.received] == u[2..];
    assert GrantDue(moved);
  }

  /** The segment extends the bytes held by exactly the next bytes of the message. */
  lemma SegmentExtends(n: Lane)
    requires LaneOk(n) && Streaming(n) && n.data != []
    ensures var f, m, r := n.data[0], n.s.message, n.r;
      && CarriesSegment(n.p, n.q, f, m, r.received, r.sequence)
      && var u, k := Pdu(n.q, f), SegmentSize(n.p, m, r.received);
      && Min(r.length - r.received, |u| - 1) == k > 0
      && Splice(n.buffer, r.received, u[1..1 + k])[..r.received + k] == m[..r.received + k]
      && InFlight(n.p, n.q, n.data[1..], m, r.received + k, (r.sequence + 1) % 16, n.s.offset, n.s.sequence)
      && (forall g | g in n.data[1..] :: IsSegment(n.q, g))
  {
    var f, m, r := n.data[0], n.s.message, n.r;
    var u, k := Pdu(n.q, f), SegmentSize(n.p, m, r.received);
    var filled := Splice(n.buffer, r.received, u[1..1 + k]);
    assert filled[..r.received + k] == filled[..r.received] + filled[r.received..r.received + k];
    assert m[..r.received + k] == m[..r.received] + m[r.received..r.received + k];
    InFlightAreSegments(n.p, n.q, n.data[1..], m, r.received + k, (r.sequence + 1) % 16, n.s.offset, n.s.sequence);
  }

  /** A segment that is not the last leads to more of the block or to its boundary. */
  lemma SegmentCounted(n: Lane, r: Receiver, buffer: seq<u8>)
    requires LaneOk(n) && Streaming(n) && n.data != [] && IsFromPeer(n.q, n.data[0])
    requires |Pdu(n.q, n.data[0])| > SegmentSize(n.p, n.s.message, n.r.received)
    requires var k := SegmentSize(n.p, n.s.message, n.r.received);
      && buffer == Splice(n.buffer, n.r.received, Pdu(n.q, n.data[0])[1..1 + k])
      && r.received == n.r.received + k < |n.s.message|
    requires r.reassembling && r.length == n.r.length && r.sequence == (n.r.sequence + 1) % 16
    requires var block := (n.r.blockReceived + 1) % 256;
      if n.q.blockSize != 0 && block == n.q.blockSize then r.pending && r.blockReceived == 0
      else !r.pending && r.blockReceived == block
    ensures var moved := n.(r := r, buffer := buffer, data := n.data[1..]);
      GrantDue(moved) || Streaming(moved)
  {
    SegmentExtends(n);
    var moved := n.(r := r, buffer := buffer, data := n.data[1..]);
    assert Holding(moved);
    if r.pending {
      assert |n.data| == 1;
    } else {
      assert BlockShared(moved);
    }
  }

  /** What the receiver makes of the segment it expects, of which it still needs `k` bytes. */
  predicate TakesSegment(l: Link, u: seq<u8>, k: nat, o: Out)
    requires LinkOk(l) && |u| > k && l.receiver.received + k <= l.receiver.length
  {
    var r, r' := l.receiver, o.link.receiver;
    && o.frames == [] && OnlyReceiver(l, o) && LinkOk(o.link)
    && o.link.buffer == Splice(l.buffer, r.received, u[1..1 + k])
    && r'.length == r.length
    && if r.received + k == r.length then o.event == Message && !r'.reassembling
       else
         && o.event == NoEvent && r'.reassembling
         && r'.received == r.received + k && r'.sequence == (r.sequence + 1) % 16
         && var block := (r.blockReceived + 1) % 256;
            if l.params.blockSize != 0 && block == l.params.blockSize then r'.pending && r'.blockReceived == 0
            else !r'.pending && r'.blockReceived == block
  }

  lemma SegmentOutcome(l: Link, u: seq<u8>, k: nat, now: nat)
    requires LinkOk(l) && l.receiver.reassembling && !l.receiver.pending
    requires |u| > 0 && u[0] % 16 == l.receiver.sequence
    requires Min(l.receiver.length - l.receiver.received, |u| - 1) == k > 0
    ensures TakesSegment(l, u, k, OnConsecutiveFrame(l, u, now))
  {
  }

  lemma SegmentArrives(l: Link, n: Lane, k: nat, o: Out)
    requires LaneOk(n) && LinkOk(l) && n.r == l.receiver && n.q == l.params && n.buffer == l.buffer
    requires Streaming(n) && n.data != [] && IsFromPeer(n.q, n.data[0])
    requires k == SegmentSize(n.p, n.s.message, n.r.received) && |Pdu(n.q, n.data[0])| > k
    requires TakesSegment(l, Pdu(n.q, n.data[0]), k, o)
    ensures LaneInv(Absorb(n, o))
    ensures o.link.receiver.reassembling || Absorb(n, o).got == [n.s.message]
  {
    SegmentExtends(n);
    if o.event == Message {
      LastSegmentTaken(n, o);
    } else {
      SegmentCounted(n, o.link.receiver, o.link.buffer);
      assert Absorb(n, o) == n.(r := o.link.receiver, buffer := o.link.buffer, data := n.data[1..]);
    }
  }

  lemma LastSegmentTaken(n: Lane, o: Out)
    requires LinkOk(o.link) && n.data != [] && n.got == [] && !n.s.phase.FirstFrame? && n.grants == []
    requires forall f | f in n.data[1..] :: IsSegment(n.q, f)
    requires o.event == Message && !o.link.receiver.reassembling && o.link.receiver.length == |n.s.message|
    requires o.link.buffer[..|n.s.message|] == n.s.message[..|n.s.message|]
    ensures Absorb(n, o).got == [n.s.message] && Over(Absorb(n, o))
  {
    assert n.s.message[..|n.s.message|] == n.s.message;
  }

  /** The message is on its way, and no side has given up. */
  ghost predicate OnItsWay(n: Lane) {
    && LaneInv(n)
    && (Over(n) ==> n.got == [n.s.message])
    && (n.s.phase.SenderIdle? ==> SingleOnWire(n) || Over(n) || n.s.offset == |n.s.message|)
  }

  lemma StreamArrives(l: Link, n: Lane, now: nat, ok: bool)
    requires LaneInv(n) && LinkOk(l) && n.r == l.receiver && n.q == l.params && n.buffer == l.buffer
    requires n.data != [] && Streaming(n)
    ensures var o := OnFrame(l, n.data[0], now, ok);
      && LaneInv(Absorb(n, o))
      && OnlyReceiver(l, o) && o.event != Failed && o.frames == []
      && (o.link.receiver.reassembling || Absorb(n, o).got == [n.s.message])
  {
    SegmentExtends(n);
    var u, k := Pdu(n.q, n.data[0]), SegmentSize(n.p, n.s.message, n.r.received);
    SegmentOutcome(l, u, k, now);
    SegmentArrives(l, n, k, OnConsecutiveFrame(l, u, now));
  }

  /** What is still in flight when the lane is over changes nothing. */
  lemma StrayArrives(l: Link, n: Lane, now: nat, ok: bool)
    requires LaneInv(n) && LinkOk(l) && n.r == l.receiver && n.q == l.params && n.buffer == l.buffer
    requires n.data != [] && Over(n)
    ensures var o := OnFrame(l, n.data[0], now, ok);
      o == Out(l, NoEvent, []) && Over(Absorb(n, o)) && LaneInv(Absorb(n, o)) && Absorb(n, o).got == n.got
  {
    assert IsSegment(n.q, n.data[0]);
  }

  lemma StaysOnItsWay(n: Lane, v: Lane)
    requires OnItsWay(n) && !Over(n) && LaneInv(v) && v.s == n.s
    requires v.got == [n.s.message] || (v.r.reassembling && !SingleOnWire(n))
    ensures OnItsWay(v)
  {
  }

  lemma DataArrives(l: Link, n: Lane, now: nat, ok: bool)
    requires LaneInv(n) && LinkOk(l) && n.r == l.receiver && n.q == l.params && n.buffer == l.buffer
    requires n.data != []
    ensures var o := OnFrame(l, n.data[0], now, ok);
      && LaneInv(Absorb(n, o))
      && OnlyReceiver(l, o) && o.event != Failed && o.frames == []
      && (OnItsWay(n) && n.got == [] ==> OnItsWay(Absorb(n, o)))
  {
    if Over(n) {
      StrayArrives(l, n, now, ok);
    } else {
      if SingleOnWire(n) {
        SingleArrives(l, n, now, ok);
      } else if FirstOnWire(n) {
        FirstArrives(l, n, now, ok);
      } else {
        StreamArrives(l, n, now, ok);
      }
      if OnItsWay(n) && n.got == [] {
        StaysOnItsWay(n, Absorb(n, OnFrame(l, n.data[0], now, ok)));
      }
    }
  }

  // ---------- both directions ----------

  function LaneAB(w: World): Lane {
    var address := AddressSize(w.a.params);
    Lane(w.a.params, w.b.params, w.a.sender, w.b.receiver, w.b.buffer,
         Select(w.ab, address, false), Select(w.ba, address, true), w.atB)
  }

  ghost predicate Inv(w: World) {
    && LinkOk(w.a) && LinkOk(w.b) && Mirrored(w.a, w.b)
    && LaneInv(LaneAB(w)) && LaneInv(LaneAB(w.Swap()))
    && (w.a.failure.NoReason? || TimedOut(w.a.failure))
    && (w.b.failure.NoReason? || TimedOut(w.b.failure))
  }

  /** What no step changes: the messages being sent. */
  predicate SameMessages(w: World, v: World) {
    v.a.sender.message == w.a.sender.message && v.b.sender.message == w.b.sender.message
  }

  function Sending(w: World, o: Out): World {
    w.(a := o.link, ab := w.ab + o.frames)
  }

  lemma SendingTwice(w: World, first: Out, rest: Out)
    ensures Sending(Sending(w, first), rest) == Sending(w, rest.(frames := first.frames + rest.frames))
  {
    assert w.ab + first.frames + rest.frames == w.ab + (first.frames + rest.frames);
  }

  lemma InvFrom(w: World, forth: Lane, back: Lane)
    requires LinkOk(w.a) && LinkOk(w.b) && Mirrored(w.a, w.b)
    requires forth == LaneAB(w) && back == LaneAB(w.Swap()) && LaneInv(forth) && LaneInv(back)
    requires w.a.failure.NoReason? || TimedOut(w.a.failure)
    requires w.b.failure.NoReason? || TimedOut(w.b.failure)
    ensures Inv(w)
  {
  }

  lemma SendKeeps(w: World, o: Out)
    requires Inv(w) && GoodSend(w.a, LaneAB(w), o)
    ensures Inv(Sending(w, o)) && SameMessages(w, Sending(w, o))
  {
    var forth, back := LaneAB(w), LaneAB(w.Swap());
    GivingUp(back);
    AppendFrames(w.ab, o.frames, AddressSize(w.a.params), false);
    InvFrom(Sending(w, o), forth.(s := o.link.sender, data := forth.data + o.frames), back.(r := o.link.receiver));
  }

  lemma GrantKeeps(w: World, o: Out)
    requires Inv(w) && GoodGrant(w.a, LaneAB(w.Swap()), o)
    ensures Inv(Sending(w, o)) && SameMessages(w, Sending(w, o))
  {
    var forth, back := LaneAB(w), LaneAB(w.Swap());
    GivingUp(forth);
    AppendFrames(w.ab, o.frames, AddressSize(w.a.params), true);
    InvFrom(Sending(w, o), forth.(s := o.link.sender), back.(r := o.link.receiver, grants := back.grants + o.frames));
  }

  lemma OneSend(w: World, now: nat, ok: bool)
    requires Inv(w) && SendDue(w.a, now)
    ensures var o := SendNext(w.a, now, ok);
      && Inv(Sending(w, o)) && SameMessages(w, Sending(w, o))
  {
    SenderSends(w.a, LaneAB(w), now, ok);
    SendKeeps(w, SendNext(w.a, now, ok));
  }

  /** At most one new frame of one kind joins its own selection only. */
  lemma AppendFrames(fs: seq<Frame>, gs: seq<Frame>, address: nat, grants: bool)
    requires |gs| <= 1 && forall g | g in gs :: IsGrantUnit(address, g) == grants
    ensures Select(fs + gs, address, grants) == Select(fs, address, grants) + gs
    ensures Select(fs + gs, address, !grants) == Select(fs, address, !grants)
  {
    SelectAppend(fs, gs, address, grants);
    SelectAppend(fs, gs, address, !grants);
    if gs != [] {
      SelectOne(gs, address, grants);
      SelectOne(gs, address, !grants);
    }
  }

  /** Whatever every single transmission keeps, the bounded send loop keeps. */
  lemma {:induction false} LoopInduction(kept: World -> bool, w: World, now: nat, budget: nat, oks: seq<bool>)
    requires kept(w) && forall v | kept(v) :: LinkOk(v.a)
    requires forall v: World, ok: bool | kept(v) && SendDue(v.a, now) :: kept(Sending(v, SendNext(v.a, now, ok)))
    ensures kept(Sending(w, SendLoop(w.a, now, budget, oks)))
    decreases budget
  {
    if budget == 0 || !SendDue(w.a, now) {
      assert Sending(w, Out(w.a, NoEvent, [])) == w;
    } else {
      var first := SendNext(w.a, now, Answer(oks));
      assert kept(Sending(w, first));
      if first.event == NoEvent {
        LoopInduction(kept, Sending(w, first), now, budget - 1, Rest(oks));
        SendingTwice(w, first, SendLoop(first.link, now, budget - 1, Rest(oks)));
      }
    }
  }

  lemma LoopSends(w: World, now: nat, oks: seq<bool>)
    requires Inv(w)
    ensures var v := Sending(w, SendLoop(w.a, now, FramesPerTick(), oks)); Inv(v) && SameMessages(w, v)
  {
    var kept := (v: World) => Inv(v) && SameMessages(w, v);
    forall v: World, ok: bool | kept(v) && SendDue(v.a, now)
      ensures kept(Sending(v, SendNext(v.a, now, ok)))
    {
      OneSend(v, now, ok);
    }
    LoopInduction(kept, w, now, FramesPerTick(), oks);
  }

  lemma ReceiverSide(w: World, now: nat, ok: bool)
    requires Inv(w)
    ensures var o := TickReceiver(w.a, now, ok);
      && Inv(Sending(w, o)) && SameMessages(w, Sending(w, o))
  {
    ReceiverTicks(w.a, LaneAB(w.Swap()), now, ok);
    GrantKeeps(w, TickReceiver(w.a, now, ok));
  }

  lemma SenderSide(w: World, now: nat, oks: seq<bool>)
    requires Inv(w)
    ensures var o := TickSender(w.a, now, oks);
      && Inv(Sending(w, o)) && SameMessages(w, Sending(w, o))
  {
    if w.a.sender.phase.FlowControl? {
      var o, n := TickSender(w.a, now, oks), LaneAB(w);
      GivingUp(n);
      assert n.data + o.frames == n.data;
      SendKeeps(w, o);
    } else {
      LoopSends(w, now, oks);
    }
  }

  lemma TickKeeps(w: World, now: nat, ok: bool, oks: seq<bool>)
    requires Inv(w)
    ensures Inv(TickLeft(w, now, ok, oks)) && SameMessages(w, TickLeft(w, now, ok, oks))
  {
    ReceiverSide(w, now, ok);
    var first := TickReceiver(w.a, now, ok);
    if first.event == NoEvent {
      SenderSide(Sending(w, first), now, oks);
      SendingTwice(w, first, TickSender(first.link, now, oks));
    }
  }

  lemma DeliverKeeps(w: World, now: nat, ok: bool)
    requires Inv(w)
    ensures Inv(DeliverRight(w, now, ok)) && SameMessages(w, DeliverRight(w, now, ok))
  {
    if w.ab != [] {
      var f := w.ab[0];
      var o := OnFrame(w.b, f, now, ok);
      var address := AddressSize(w.a.params);
      if IsGrantUnit(address, f) {
        GrantArrives(w.b, LaneAB(w.Swap()), now);
        assert o == OnFlowControl(w.b, Pdu(w.b.params, f), now);
        assert w.atB + Reassembled(o) == w.atB;
      } else {
        DataArrives(w.b, LaneAB(w), now, ok);
      }
      assert w.ba + o.frames == w.ba;
    }
  }

  lemma StepKeeps(w: World, action: Action)
    requires Inv(w)
    ensures Inv(Next(w, action)) && SameMessages(w, Next(w, action))
  {
    match action
    case TickA(now, ok, oks) => TickKeeps(w, now, ok, oks);
    case TickB(now, ok, oks) => TickKeeps(w.Swap(), now, ok, oks);
    case DeliverToB(now, ok) => DeliverKeeps(w, now, ok);
    case DeliverToA(now, ok) => DeliverKeeps(w.Swap(), now, ok);
  }

  // ---------- theorems over whole runs ----------

  /** Fresh links, each with a message to send or not sending; nothing in flight. */
  predicate Start(w: World) {
    && LinkOk(w.a) && LinkOk(w.b) && Mirrored(w.a, w.b)
    && LegalDataLength(w.a.params) && LegalDataLength(w.b.params)
    && (w.a.sender.message != [] || w.a.sender.phase.SenderIdle?)
    && (w.b.sender.message != [] || w.b.sender.phase.SenderIdle?)
    && (w.a.sender.phase.FirstFrame? || w.a.sender.phase.SenderIdle?)
    && (w.b.sender.phase.FirstFrame? || w.b.sender.phase.SenderIdle?)
    && !w.a.receiver.reassembling && !w.b.receiver.reassembling
    && w.ab == [] && w.ba == [] && w.atA == [] && w.atB == []
    && w.a.failure.NoReason? && w.b.failure.NoReason?
  }

  /** What the far end holds of a message: nothing yet, its first bytes, or all of it exactly once. */
  predicate Faithful(message: seq<u8>, far: Link, got: seq<seq<u8>>) {
    && (got == [] || got == [message])
    && (far.receiver.reassembling ==>
          && far.receiver.length == |message| && far.receiver.received < |message|
          && far.receiver.length <= |far.buffer|
          && far.buffer[..far.receiver.received] == message[..far.receiver.received])
  }

  lemma {:induction false} RunKeeps(w: World, actions: seq<Action>)
    requires Inv(w)
    ensures Inv(Run(w, actions)) && SameMessages(w, Run(w, actions))
    decreases |actions|
  {
    if actions != [] {
      StepKeeps(w, actions[0]);
      RunKeeps(Next(w, actions[0]), actions[1..]);
    }
  }

  /**
    Under every interleaving, with transmissions refused and timers expiring
    anywhere, both receivers always hold a prefix of the message sent to them
    and complete with exactly that message, at most once; a link that fails has
    timed out, it never sees a sequence error, an overflow or too many waits.
   */
  lemma MessagesArriveIntact(w: World, actions: seq<Action>)
    requires Start(w)
    ensures var v := Run(w, actions);
      && Faithful(w.a.sender.message, v.b, v.atB) && Faithful(w.b.sender.message, v.a, v.atA)
      && (v.a.failure.NoReason? || TimedOut(v.a.failure))
      && (v.b.failure.NoReason? || TimedOut(v.b.failure))
  {
    assert Inv(w);
    RunKeeps(w, actions);
  }

  // ---------- delivery ----------

  /** One message from a to b; b sends nothing but flow control. */
  ghost predicate Live(w: World) {
    && Inv(w) && !w.a.receiver.reassembling && w.b.sender.phase.SenderIdle? && OnItsWay(LaneAB(w))
    && w.ab == LaneAB(w).data && w.ba == LaneAB(w).grants
  }

  /** Work left: the first frame, the unsent bytes, the frames in flight, the grant on its way. */
  function GrantSteps(n: Lane): nat {
    if n.r.reassembling && n.r.pending then 2 else if n.grants != [] then 1 else 0
  }

  ghost predicate Nearer(n: Lane, v: Lane) {
    && OnItsWay(v) && v.s.message == n.s.message
    && (|| (n.s.phase.FirstFrame? && !v.s.phase.FirstFrame?)
        || (n.s.phase.FirstFrame? == v.s.phase.FirstFrame? &&
            (|| v.s.offset > n.s.offset
             || (v.s.offset == n.s.offset && |v.data| < |n.data|)
             || (v.s.offset == n.s.offset && |v.data| == |n.data| && GrantSteps(v) < GrantSteps(n)))))
  }

  /** A tick at the time the next frame is due sends that frame and at most postpones the one after. */
  lemma TickSendsOne(w: World, now: nat)
    requires LinkOk(w.a) && !w.a.receiver.reassembling && SendDue(w.a, now)
    ensures var v, sent := SendTick(w, now), Sending(w, SendNext(w.a, now, true));
      v == sent.(a := sent.a.(sender := sent.a.sender.(nextFrameUs := v.a.sender.nextFrameUs)))
  {
    var first := SendNext(w.a, now, true);
    var rest := SendLoop(first.link, now, FramesPerTick() - 1, []);
    if first.event == NoEvent {
      if SendDue(first.link, now) {
        var second := SendNext(first.link, now, false);
        assert !SendDue(second.link, now);
        assert second.event == NoEvent;
        assert SendLoop(second.link, now, FramesPerTick() - 2, []) == Out(second.link, NoEvent, []);
      }
      assert rest.frames == [];
      assert first.frames + rest.frames == first.frames;
    }
    assert [] + first.frames == first.frames;
  }

  function SendTick(w: World, now: nat): World
    requires LinkOk(w.a)
  {
    TickLeft(w, now, false, [true])
  }

  lemma SendingAdvances(l: Link, n: Lane, now: nat, o: Out)
    requires OnItsWay(n) && n.got == [] && LinkOk(l) && n.s == l.sender && n.p == l.params && Faces(l, n.q)
    requires SendDue(l, now) && o == SendNext(l, now, true)
    ensures Nearer(n, n.(s := o.link.sender, data := n.data + o.frames))
  {
    var v := n.(s := o.link.sender, data := n.data + o.frames);
    SenderSends(l, n, now, true);
    if n.s.phase.FirstFrame? {
      NotASegment(l, n.q);
      assert o.frames[0] in v.data;
      assert !Over(v);
    } else {
      assert Streaming(n);
      assert !Over(v);
    }
  }

  lemma NotASegment(l: Link, q: Params)
    requires LinkOk(l) && l.sender.phase.FirstFrame? && Faces(l, q)
    ensures var m := l.sender.message;
      if FitsSingle(l.params, |m|) then !IsSegment(q, BuildFrame(l, SingleFramePdu(l.params, m)))
      else !IsSegment(q, BuildFrame(l, FirstFramePdu(l.params, m)))
  {
    var m := l.sender.message;
    if FitsSingle(l.params, |m|) {
      FrameReachesPeer(l, q, SingleFramePdu(l.params, m));
    } else {
      FrameReachesPeer(l, q, FirstFramePdu(l.params, m));
    }
  }

  lemma TickAdvances(w: World, now: nat)
    requires Live(w) && w.atB == [] && SendDue(w.a, now)
    ensures var v := SendTick(w, now); Live(v) && Nearer(LaneAB(w), LaneAB(v))
  {
    var n := LaneAB(w);
    var v, o := SendTick(w, now), SendNext(w.a, now, true);
    TickKeeps(w, now, false, [true]);
    TickSendsOne(w, now);
    SenderSends(w.a, n, now, true);
    SendingAdvances(w.a, n, now, o);
    AppendFrames(w.ab, o.frames, AddressSize(w.a.params), false);
    var sent := n.(s := o.link.sender, data := n.data + o.frames);
    assert LaneAB(v) == sent.(s := sent.s.(nextFrameUs := v.a.sender.nextFrameUs));
  }

  lemma DeliveryAdvances(w: World, now: nat)
    requires Live(w) && w.atB == [] && w.ab != []
    ensures var v := DeliverRight(w, now, false); Live(v) && Nearer(LaneAB(w), LaneAB(v))
  {
    var n := LaneAB(w);
    DeliverKeeps(w, now, false);
    DataArrives(w.b, n, now, false);
    var o := OnFrame(w.b, w.ab[0], now, false);
    assert !IsGrantUnit(AddressSize(w.a.params), w.ab[0]) by {
      SelectedKind(w.ab, AddressSize(w.a.params), false);
    }
    assert w.ba + o.frames == w.ba;
    assert LaneAB(DeliverRight(w, now, false)) == Absorb(n, o);
  }

  lemma {:induction false} SelectedKind(fs: seq<Frame>, address: nat, grants: bool)
    ensures forall f | f in Select(fs, address, grants) :: IsGrantUnit(address, f) == grants
    decreases |fs|
  {
    if fs != [] {
      SelectedKind(fs[1..], address, grants);
    }
  }

  lemma GrantTickAdvances(w: World, now: nat)
    requires Live(w) && GrantDue(LaneAB(w)) && w.b.receiver.flowControlDueUs <= now
    ensures var v := Next(w, TickB(now, true, [])); Live(v) && Nearer(LaneAB(w), LaneAB(v))
  {
    var n := LaneAB(w);
    var v := Next(w, TickB(now, true, []));
    StepKeeps(w, TickB(now, true, []));
    ReceiverTicks(w.b, n, now, true);
    var o := TickReceiver(w.b, now, true);
    assert TickSender(o.link, now, []) == Out(o.link, NoEvent, []);
    assert Tick(w.b, now, true, []).frames == o.frames;
    AppendFrames(w.ba, o.frames, AddressSize(w.a.params), true);
    assert LaneAB(v) == n.(r := o.link.receiver, grants := n.grants + o.frames);
  }

  lemma GrantDeliveryAdvances(w: World, now: nat)
    requires Live(w) && GrantOnWire(LaneAB(w))
    ensures var v := Next(w, DeliverToA(now, false)); Live(v) && Nearer(LaneAB(w), LaneAB(v))
  {
    var n, v := LaneAB(w), Next(w, DeliverToA(now, false));
    StepKeeps(w, DeliverToA(now, false));
    GrantArrives(w.a, n, now);
    SelectedKind(w.ba, AddressSize(w.a.params), true);
    var o := OnFrame(w.a, w.ba[0], now, false);
    assert o == OnFlowControl(w.a, Pdu(n.p, n.grants[0]), now);
    assert w.ab + o.frames == w.ab && w.atA + Reassembled(o) == w.atA;
    assert LaneAB(v) == n.(s := o.link.sender, grants := n.grants[1..]);
  }

  function Later(now: nat, due: nat): nat {
    if now < due then due else now
  }

  /** The clock never runs backwards, from `now` on. */
  predicate InOrder(now: nat, actions: seq<Action>)
    decreases |actions|
  {
    actions == [] || (now <= actions[0].now && InOrder(actions[0].now, actions[1..]))
  }

  /** From every live state, at any time, some step then or as soon as one is due brings the message nearer. */
  lemma NextStep(w: World, now: nat) returns (action: Action)
    requires Live(w) && w.atB == []
    ensures Live(Next(w, action)) && Nearer(LaneAB(w), LaneAB(Next(w, action)))
    ensures now <= action.now
  {
    var n := LaneAB(w);
    if GrantDue(n) {
      var at := Later(now, w.b.receiver.flowControlDueUs);
      GrantTickAdvances(w, at);
      action := TickB(at, true, []);
    } else if GrantOnWire(n) {
      GrantDeliveryAdvances(w, now);
      action := DeliverToA(now, false);
    } else if w.ab != [] {
      DeliveryAdvances(w, now);
      action := DeliverToB(now, false);
    } else {
      var at := Later(now, w.a.sender.nextFrameUs);
      TickAdvances(w, at);
      action := TickA(at, false, [true]);
    }
  }

  /** Nothing ever blocks: from every live state, at any time, a schedule from then on delivers the message. */
  lemma {:induction false} CanAlwaysDeliver(w: World, now: nat) returns (actions: seq<Action>)
    requires Live(w)
    ensures Run(w, actions).atB == [w.a.sender.message] && InOrder(now, actions)
    decreases if w.a.sender.phase.FirstFrame? then 1 else 0,
              |w.a.sender.message| - w.a.sender.offset, |w.ab|, GrantSteps(LaneAB(w))
  {
    if w.atB == [w.a.sender.message] {
      actions := [];
    } else {
      var action := NextStep(w, now);
      var rest := CanAlwaysDeliver(Next(w, action), action.now);
      actions := [action] + rest;
      assert actions[1..] == rest;
    }
  }

  lemma StartIsLive(w: World)
    requires Start(w) && w.a.sender.phase.FirstFrame? && w.b.sender.phase.SenderIdle?
    ensures Live(w)
  {
  }

  /** A message sent by fresh links can be delivered from any time on, and is then the only thing delivered. */
  lemma EveryMessageCanArrive(w: World, now: nat) returns (actions: seq<Action>)
    requires Start(w) && w.a.sender.phase.FirstFrame? && w.b.sender.phase.SenderIdle?
    ensures InOrder(now, actions) && Run(w, actions).atB == [w.a.sender.message]
    ensures var v := Run(w, actions); v.atA == [] || v.atA == [w.b.sender.message]
  {
    StartIsLive(w);
    actions := CanAlwaysDeliver(w, now);
    MessagesArriveIntact(w, actions);
  }

  // ---------- why the data length must be legal ----------

  /** What the peer holds after the first frame of `m` is the beginning of `m`. */
  ghost predicate FirstFrameIntact(l: Link, far: Link, m: seq<u8>)
    requires LinkOk(l) && LinkOk(far) && !FitsSingle(l.params, |m|) && |m| <= MESSAGE_SIZE_MAX
  {
    var o := OnFrame(far, BuildFrame(l, FirstFramePdu(l.params, m)), 0, false);
    o.link.receiver.reassembling && o.link.buffer[..o.link.receiver.received] <= m
  }

  /**
    The agent lets any data length from 8 to 64 through. The first frame of
    every segmented message leaves its bytes intact exactly when the length is
    one CAN FD frames have: with any other, its filler is taken for data.
   */
  lemma IntactOnlyWithLegalLength(l: Link, far: Link)
    requires LinkOk(l) && LinkOk(far) && Faces(l, far.params) && !far.receiver.reassembling
    requires |far.buffer| == MESSAGE_SIZE_MAX
    ensures LegalDataLength(l.params) <==>
      forall m | !FitsSingle(l.params, |m|) && |m| <= MESSAGE_SIZE_MAX :: FirstFrameIntact(l, far, m)
  {
    if LegalDataLength(l.params) {
      forall m | !FitsSingle(l.params, |m|) && |m| <= MESSAGE_SIZE_MAX ensures FirstFrameIntact(l, far, m) {
        LegalFirstFrame(l, far, m);
      }
    } else {
      var m: seq<u8> := seq(200, _ => (l.params.padding + 1) % 0x100);
      FillerTakenForData(l, far, m);
    }
  }

  lemma LegalFirstFrame(l: Link, far: Link, m: seq<u8>)
    requires LinkOk(l) && LinkOk(far) && Faces(l, far.params) && LegalDataLength(l.params)
    requires !FitsSingle(l.params, |m|) && |m| <= MESSAGE_SIZE_MAX
    ensures FirstFrameIntact(l, far, m)
  {
    FirstFrameTaken(l, far, m);
    var u := Pdu(far.params, BuildFrame(l, FirstFramePdu(l.params, m)));
    assert u[2..] == m[..FirstCapacity(l.params)];
  }

  lemma FillerTakenForData(l: Link, far: Link, m: seq<u8>)
    requires LinkOk(l) && LinkOk(far) && Faces(l, far.params) && !LegalDataLength(l.params)
    requires |m| == 200 && forall i | 0 <= i < 200 :: m[i] != l.params.padding
    ensures !FitsSingle(l.params, |m|) && !FirstFrameIntact(l, far, m)
  {
    FirstFrameTaken(l, far, m);
    var n := FirstCapacity(l.params);
    var u := Pdu(far.params, BuildFrame(l, FirstFramePdu(l.params, m)));
    assert u[2..][n] == l.params.padding;
  }

  lemma FirstFrameTaken(l: Link, far: Link, m: seq<u8>)
    requires LinkOk(l) && LinkOk(far) && Faces(l, far.params)
    requires !FitsSingle(l.params, |m|) && |m| <= MESSAGE_SIZE_MAX
    requires LegalDataLength(l.params) || |m| == 200
    ensures var f := BuildFrame(l, FirstFramePdu(l.params, m));
      var o := OnFrame(far, f, 0, false);
      && |f.payload| > AddressSize(far.params) && |Pdu(far.params, f)| > 2
      && Pdu(far.params, f) == FirstFramePdu(l.params, m) + Filler(l.params, |Pdu(far.params, f)| - 2 - FirstCapacity(l.params))
      && (|Pdu(far.params, f)| - 2 == FirstCapacity(l.params) <==> LegalDataLength(l.params))
      && o.link.receiver.reassembling && o.link.buffer[..o.link.receiver.received] == Pdu(far.params, f)[2..]
  {
    var unit := FirstFramePdu(l.params, m);
    FrameReachesPeer(l, far.params, unit);
    var f := BuildFrame(l, unit);
    var u := Pdu(far.params, f);
    assert u[0] % 16 == |m| / 0x100 && u[1] == |m| % 0x100;
    assert OnFrame(far, f, 0, false) == OnFirstFrame(far, u, |f.payload|, 0, false);
  }
}
