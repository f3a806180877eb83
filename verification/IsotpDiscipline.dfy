/**
  What a link does against a peer that may send anything at any time, judged by
  a monitor of its own: consecutive frames only under a grant, at most the
  granted block of them, spaced by the granted separation time, and giving up on
  the eleventh wait in a row. The monitor is told of the consecutive frames sent,
  of the flow control frames that arrive while the link waits for one, and of
  the link's giving up; it keeps its own count of grants, times and waits.
 */
module IsotpDiscipline {
  import opened Frames
  import opened IsotpLink

  /** What happens to the link, in any order. */
  datatype Stimulus =
    | Request(message: seq<u8>, now: nat)
    | Arrival(frame: Frame, now: nat, ok: bool)
    | Clock(now: nat, ok: bool, oks: seq<bool>)

  predicate Acceptable(s: Stimulus) {
    s.Request? ==> |s.message| <= MESSAGE_SIZE_MAX
  }

  function React(l: Link, s: Stimulus): (o: Out)
    requires LinkOk(l) && Acceptable(s)
    ensures LinkOk(o.link)
  {
    match s
    case Request(message, now) => Out(Send(l, message, now), NoEvent, [])
    case Arrival(frame, now, ok) => OnFrame(l, frame, now, ok)
    case Clock(now, ok, oks) => Tick(l, now, ok, oks)
  }

  // ---------- the monitor ----------

  datatype Sighting =
    | Restarted                                     // a new message is to be sent
    | Granted(blockSize: nat, gapUs: nat)           // flow control: go on
    | Waited(gaveUp: bool)                          // flow control: wait
    | Segment(at: nat)                              // a consecutive frame went out

  /** `left` is what remains of the block (None: no limit), `last` the latest segment of the block. */
  datatype Monitor = Monitor(open: bool, left: Option<nat>, gapUs: nat, last: Option<nat>, waits: nat)

  predicate Allows(m: Monitor, s: Sighting) {
    match s
    case Restarted => true
    case Granted(_, _) => true
    case Waited(gaveUp) => gaveUp == (m.waits + 1 > 10)
    case Segment(at) =>
      && m.open
      && (m.left.Some? ==> m.left.value > 0)
      && (m.last.Some? ==> at >= m.last.value + m.gapUs)
  }

  function Watch(m: Monitor, s: Sighting): Monitor {
    match s
    case Restarted => Monitor(false, None, 0, None, 0)
    case Granted(blockSize, gapUs) => Monitor(true, if blockSize == 0 then None else Some(blockSize), gapUs, None, 0)
    case Waited(_) => m.(waits := m.waits + 1)
    case Segment(at) =>
      m.(last := Some(at),
         left := if m.left.Some? && m.left.value > 0 then Some(m.left.value - 1) else m.left)
  }

  predicate AllowsAll(m: Monitor, ss: seq<Sighting>)
    decreases |ss|
  {
    ss == [] || (Allows(m, ss[0]) && AllowsAll(Watch(m, ss[0]), ss[1..]))
  }

  function WatchAll(m: Monitor, ss: seq<Sighting>): Monitor
    decreases |ss|
  {
    if ss == [] then m else WatchAll(Watch(m, ss[0]), ss[1..])
  }

  lemma {:induction false} WatchAppend(m: Monitor, ss: seq<Sighting>, ts: seq<Sighting>)
    ensures AllowsAll(m, ss + ts) <==> AllowsAll(m, ss) && AllowsAll(WatchAll(m, ss), ts)
    ensures WatchAll(m, ss + ts) == WatchAll(WatchAll(m, ss), ts)
    decreases |ss|
  {
    if ss == [] {
      assert ss + ts == ts;
    } else {
      assert (ss + ts)[0] == ss[0] && (ss + ts)[1..] == ss[1..] + ts;
      WatchAppend(Watch(m, ss[0]), ss[1..], ts);
    }
  }

  // ---------- what the monitor sees of the traffic ----------

  predicate IsConsecutive(p: Params, f: Frame) {
    |f.payload| > AddressSize(p) && Pdu(p, f)[0] / 16 == 2
  }

  function SeenSent(p: Params, frames: seq<Frame>, now: nat): seq<Sighting> {
    if frames == [] then []
    else (if IsConsecutive(p, frames[0]) then [Segment(now)] else []) + SeenSent(p, frames[1..], now)
  }

  /** A flow control frame counts while the link waits for one. */
  function SeenArriving(l: Link, f: Frame, gaveUp: bool): seq<Sighting> {
    if !l.sender.phase.FlowControl? || !IsFromPeer(l.params, f) || |Pdu(l.params, f)| < 3 then []
    else
      var u := Pdu(l.params, f);
      if u[0] == 0x30 then [Granted(u[1], StMinUs(u[2]))]
      else if u[0] == 0x31 then [Waited(gaveUp)]
      else []
  }

  function Seen(l: Link, s: Stimulus): seq<Sighting>
    requires LinkOk(l) && Acceptable(s)
  {
    var o := React(l, s);
    match s
    case Request(_, _) => [Restarted]
    case Arrival(frame, now, _) => SeenArriving(l, frame, o.link.failure.WaitLimit? && o.event == Failed) + SeenSent(l.params, o.frames, now)
    case Clock(now, _, _) => SeenSent(l.params, o.frames, now)
  }

  function SeenInRun(l: Link, ss: seq<Stimulus>): seq<Sighting>
    requires LinkOk(l) && forall s | s in ss :: Acceptable(s)
    decreases |ss|
  {
    if ss == [] then [] else Seen(l, ss[0]) + SeenInRun(React(l, ss[0]).link, ss[1..])
  }

  // ---------- the link keeps to the monitor ----------

  predicate Agrees(l: Link, m: Monitor) {
    var s := l.sender;
    && (s.phase.ConsecutiveFrames? ==>
          && m.open && m.gapUs == s.stMinUs
          && m.left == (if s.blockLimited then Some(s.blockRemaining) else None)
          && (m.last.Some? ==> s.nextFrameUs >= m.last.value + m.gapUs))
    && (s.phase.FirstFrame? || s.phase.FlowControl? ==> m.waits == s.waitCount <= WAIT_FRAMES_MAX)
    && (s.phase.FirstFrame? ==> s.waitCount == 0)
    && (s.phase.ConsecutiveFrames? ==> m.waits == s.waitCount == 0)
  }

  /** What the link shows while doing `o` is allowed, and link and monitor agree again. */
  predicate InStep(l: Link, m: Monitor, o: Out, seen: seq<Sighting>) {
    AllowsAll(m, seen) && Agrees(o.link, WatchAll(m, seen)) && o.link.params == l.params
  }

  lemma BuiltKind(l: Link, pdu: seq<u8>, now: nat)
    requires 0 < |pdu| && AddressSize(l.params) + |pdu| <= PAYLOAD_MAX_FD
    ensures SeenSent(l.params, [BuildFrame(l, pdu)], now) == if pdu[0] / 16 == 2 then [Segment(now)] else []
  {
    assert Pdu(l.params, BuildFrame(l, pdu))[0] == pdu[0];
    assert [BuildFrame(l, pdu)][1..] == [];
  }

  lemma OneSegment(l: Link, m: Monitor, now: nat, ok: bool)
    requires LinkOk(l) && Agrees(l, m) && SendDue(l, now)
    ensures InStep(l, m, SendNext(l, now, ok), SeenSent(l.params, SendNext(l, now, ok).frames, now))
  {
    var o := SendNext(l, now, ok);
    if ok {
      if l.sender.phase.ConsecutiveFrames? {
        BuiltKind(l, ConsecutiveFramePdu(l.params, l.sender), now);
        assert [Segment(now)][1..] == [];
        assert AllowsAll(m, [Segment(now)]);
      } else if FitsSingle(l.params, |l.sender.message|) {
        BuiltKind(l, SingleFramePdu(l.params, l.sender.message), now);
      } else {
        BuiltKind(l, FirstFramePdu(l.params, l.sender.message), now);
      }
    }
  }

  lemma {:induction false} SentAppend(p: Params, fs: seq<Frame>, gs: seq<Frame>, now: nat)
    ensures SeenSent(p, fs + gs, now) == SeenSent(p, fs, now) + SeenSent(p, gs, now)
    decreases |fs|
  {
    if fs == [] {
      assert fs + gs == gs;
    } else {
      assert (fs + gs)[0] == fs[0] && (fs + gs)[1..] == fs[1..] + gs;
      SentAppend(p, fs[1..], gs, now);
    }
  }

  /** Two steps in a row. */
  lemma InStepTwice(l: Link, m: Monitor, first: Out, rest: Out, now: nat)
    requires InStep(l, m, first, SeenSent(l.params, first.frames, now))
    requires InStep(first.link, WatchAll(m, SeenSent(l.params, first.frames, now)), rest, SeenSent(l.params, rest.frames, now))
    ensures InStep(l, m, rest, SeenSent(l.params, first.frames + rest.frames, now))
  {
    SentAppend(l.params, first.frames, rest.frames, now);
    WatchAppend(m, SeenSent(l.params, first.frames, now), SeenSent(l.params, rest.frames, now));
  }

  lemma {:induction false} LoopInStep(l: Link, m: Monitor, now: nat, budget: nat, oks: seq<bool>)
    requires LinkOk(l) && Agrees(l, m)
    ensures var o := SendLoop(l, now, budget, oks); InStep(l, m, o, SeenSent(l.params, o.frames, now))
    decreases budget
  {
    if budget > 0 && SendDue(l, now) {
      OneSegment(l, m, now, Answer(oks));
      var first := SendNext(l, now, Answer(oks));
      if first.event == NoEvent {
        var m' := WatchAll(m, SeenSent(l.params, first.frames, now));
        LoopInStep(first.link, m', now, budget - 1, Rest(oks));
        InStepTwice(l, m, first, SendLoop(first.link, now, budget - 1, Rest(oks)), now);
      }
    }
  }

  lemma ClockInStep(l: Link, m: Monitor, now: nat, ok: bool, oks: seq<bool>)
    requires LinkOk(l) && Agrees(l, m)
    ensures var o := Tick(l, now, ok, oks); InStep(l, m, o, SeenSent(l.params, o.frames, now))
  {
    var first := TickReceiver(l, now, ok);
    BuiltKind(l, FlowControlPdu(l.params, 0), now);
    assert InStep(l, m, first, SeenSent(l.params, first.frames, now));
    if first.event == NoEvent {
      var m' := WatchAll(m, SeenSent(l.params, first.frames, now));
      LoopInStep(first.link, m', now, FramesPerTick(), oks);
      InStepTwice(l, m, first, TickSender(first.link, now, oks), now);
    }
  }

  lemma ArrivalInStep(l: Link, m: Monitor, f: Frame, now: nat, ok: bool)
    requires LinkOk(l) && Agrees(l, m)
    ensures InStep(l, m, OnFrame(l, f, now, ok), Seen(l, Arrival(f, now, ok)))
  {
    var o := OnFrame(l, f, now, ok);
    if IsFromPeer(l.params, f) {
      var u := Pdu(l.params, f);
      if u[0] / 16 == 3 {
        FlowControlInStep(l, m, u, now);
        assert Seen(l, Arrival(f, now, ok)) == SeenArriving(l, f, o.link.failure.WaitLimit? && o.event == Failed);
      } else {
        BuiltKind(l, FlowControlPdu(l.params, 2), now);
        OtherInStep(l, m, f, now, ok);
      }
    }
  }

  lemma FlowControlInStep(l: Link, m: Monitor, u: seq<u8>, now: nat)
    requires LinkOk(l) && Agrees(l, m) && |u| > 0 && u[0] / 16 == 3
    ensures var o := OnFlowControl(l, u, now);
      var seen := if !l.sender.phase.FlowControl? || |u| < 3 then []
                  else if u[0] == 0x30 then [Granted(u[1], StMinUs(u[2]))]
                  else if u[0] == 0x31 then [Waited(o.link.failure.WaitLimit? && o.event == Failed)]
                  else [];
      InStep(l, m, o, seen) && o.frames == []
  {
    if |u| >= 3 {
      assert [Granted(u[1], StMinUs(u[2]))][1..] == [];
      assert [Waited(true)][1..] == [] && [Waited(false)][1..] == [];
    }
  }

  lemma OtherInStep(l: Link, m: Monitor, f: Frame, now: nat, ok: bool)
    requires LinkOk(l) && Agrees(l, m) && IsFromPeer(l.params, f) && Pdu(l.params, f)[0] / 16 != 3
    requires SeenSent(l.params, [BuildFrame(l, FlowControlPdu(l.params, 2))], now) == []
    ensures InStep(l, m, OnFrame(l, f, now, ok), Seen(l, Arrival(f, now, ok)))
  {
    OtherKeepsAgreement(l, m, f, now, ok);
    OtherSendsNothingSeen(l, f, now, ok);
  }

  lemma OtherKeepsAgreement(l: Link, m: Monitor, f: Frame, now: nat, ok: bool)
    requires LinkOk(l) && Agrees(l, m) && IsFromPeer(l.params, f) && Pdu(l.params, f)[0] / 16 != 3
    ensures Agrees(OnFrame(l, f, now, ok).link, m)
  {
  }

  lemma OtherSendsNothingSeen(l: Link, f: Frame, now: nat, ok: bool)
    requires LinkOk(l) && IsFromPeer(l.params, f) && Pdu(l.params, f)[0] / 16 != 3
    requires SeenSent(l.params, [BuildFrame(l, FlowControlPdu(l.params, 2))], now) == []
    ensures var o := OnFrame(l, f, now, ok);
      && SeenSent(l.params, o.frames, now) == []
      && SeenArriving(l, f, o.link.failure.WaitLimit? && o.event == Failed) == []
  {
  }

  lemma ReactInStep(l: Link, m: Monitor, s: Stimulus)
    requires LinkOk(l) && Agrees(l, m) && Acceptable(s)
    ensures InStep(l, m, React(l, s), Seen(l, s))
  {
    match s
    case Request(message, now) => assert [Restarted][1..] == [];
    case Arrival(frame, now, ok) => ArrivalInStep(l, m, frame, now, ok);
    case Clock(now, ok, oks) => ClockInStep(l, m, now, ok, oks);
  }

  /** Whatever the peer sends and whenever the clock ticks, the link stays disciplined. */
  lemma {:induction false} AlwaysDisciplined(l: Link, m: Monitor, ss: seq<Stimulus>)
    requires LinkOk(l) && Agrees(l, m) && forall s | s in ss :: Acceptable(s)
    ensures AllowsAll(m, SeenInRun(l, ss))
    decreases |ss|
  {
    if ss != [] {
      ReactInStep(l, m, ss[0]);
      AlwaysDisciplined(React(l, ss[0]).link, WatchAll(m, Seen(l, ss[0])), ss[1..]);
      WatchAppend(m, Seen(l, ss[0]), SeenInRun(React(l, ss[0]).link, ss[1..]));
    }
  }

  const UNSEEN := Monitor(false, None, 0, None, 0)

  lemma OpenedLinkDisciplined(l: Link, requestId: u32, channel: u8, params: Params, ss: seq<Stimulus>)
    requires LinkOk(l) && ParamsOk(params) && forall s | s in ss :: Acceptable(s)
    ensures AllowsAll(UNSEEN, SeenInRun(Open(l, requestId, channel, params), ss))
  {
    AlwaysDisciplined(Open(l, requestId, channel, params), UNSEEN, ss);
  }
}
