/**
  From the steps of the transaction API to rosters, templates and records on
  the wire (src/client/transaction_builder.c), and the promise that what the
  builder accepts the agent runs.
 */
module TransactionBuilder {
  import opened Frames
  import opened MachineWords
  import opened StepCodec
  import opened AgentRules
  import I = IsotpLink

  // ---------- the API's types ----------

  const STANDARD_ID_MASK: W32 := Ones(11)
  const EXTENDED_ID_MASK: W32 := Ones(29)
  const EFF: W32 := {31}
  const ANY_ID_BITS: W32 := Ones(32)
  const MESSAGE_RECORD_BYTES := 248
  const RECORDS_MAX := 17
  const MESSAGE_MAX := 4095

  datatype CanId = CanId(value: W32, extended: bool)
  {
    function Width(): W32 { if extended then EXTENDED_ID_MASK else STANDARD_ID_MASK }
    predicate IsValid() { value <= Width() }
    function ToWire(): W32 { if extended then value + EFF else value }
  }

  /** The id compared but for its ignored bits, and the first eight bytes under their masks. */
  datatype Match = Match(id: CanId, ignoredBits: W32, masks: W64, values: W64)

  const NODE_IN_ID: u8 := 0
  const NODE_IN_BYTE: u8 := 1

  datatype Response = Response(
    success: Match, failure: Option<Match>, pending: Option<Match>,
    hasNodes: bool, nodes: seq<W32>, allowedMissing: u32, nodeFrom: u8, nodeByte: u8,
    timeoutMs: u32, timeoutAfterPendingMs: u32, continueOnTimeout: bool, onMismatchAbort: bool)

  datatype IsotpSpec = IsotpSpec(
    txId: CanId, rxId: CanId, addressByte: bool, txAddress: u8, rxAddress: u8,
    padded: bool, padding: u8, fd: bool, bitrateSwitch: bool, fdDataLength: u8, blockSize: u8, stMin: u8)

  datatype Step = Step(
    id: CanId, data: Option<seq<u8>>, isotp: Option<IsotpSpec>,
    response: Option<Response>, qualifier: Option<Match>, gapUs: u32)

  // ---------- checks ----------

  predicate IsMatchValid(m: Match) {
    m.ignoredBits == ANY_ID_BITS || (m.id.IsValid() && m.ignoredBits <= m.id.Width())
  }

  predicate IsSameId(a: Match, b: Match) {
    a.id == b.id && a.ignoredBits == b.ignoredBits
  }

  predicate LinkOk(s: Step)
    requires s.isotp.Some?
  {
    var link := s.isotp.value;
    && link.txId.IsValid() && link.rxId.IsValid()
    && s.id == link.txId
    && (link.fd ==> PAYLOAD_MAX_CLASSIC <= link.fdDataLength && IsFrameLength(link.fdDataLength))
    && (!link.fd ==> !link.bitrateSwitch)
    && if s.data.None? then s.response.Some? else 0 < |s.data.value| <= MESSAGE_MAX
  }

  predicate FrameOk(s: Step) {
    if s.data.None? then s.response.Some?
    else s.id.IsValid() && IsFrameLength(|s.data.value|)
  }

  function LowestFrom(v: W32, i: nat): (bit: nat)
    requires i <= 32
    ensures bit < 32
    ensures bit in v || (bit == 0 && forall k | i <= k < 32 :: k !in v)
    ensures bit in v ==> forall k | i <= k < bit :: k !in v
    decreases 32 - i
  {
    if i == 32 then 0 else if i in v then i else LowestFrom(v, i + 1)
  }

  /** The position of the lowest one bit; 0 for the empty word. */
  function LowestSetBit(v: W32): (bit: nat)
    ensures bit < 32 && (v != {} ==> bit in v) && forall k | 0 <= k < bit :: k !in v
  {
    LowestFrom(v, 0)
  }

  /** The node, moved to where the free bits of the id begin, stays within them. */
  predicate NodeFits(node: W32, shift: nat, ignored: W32) {
    Shl(node, shift, 64) <= ignored
  }

  predicate NodesOk(r: Response) {
    if !r.hasNodes then r.nodes == [] && r.allowedMissing == 0
    else
      && 0 < |r.nodes| <= ROSTER_MAX && r.allowedMissing < |r.nodes|
      && if r.nodeFrom == NODE_IN_BYTE then
           r.nodeByte < PAYLOAD_MAX_FD && forall n | n in r.nodes :: n <= Ones(8)
         else
           && r.nodeFrom == NODE_IN_ID
           && r.success.ignoredBits != {} && r.success.ignoredBits != ANY_ID_BITS
           && forall n | n in r.nodes :: NodeFits(n, LowestSetBit(r.success.ignoredBits), r.success.ignoredBits)
  }

  predicate ResponseOk(r: Response, qualifier: Option<Match>) {
    && r.timeoutMs != 0
    && (r.pending.Some? ==> r.timeoutAfterPendingMs != 0)
    && IsMatchValid(r.success)
    && (r.failure.Some? ==> IsMatchValid(r.failure.value))
    && (r.pending.Some? ==> IsMatchValid(r.pending.value))
    && (qualifier.Some? ==> IsMatchValid(qualifier.value))
    && (qualifier.Some? && r.hasNodes ==> IsSameId(qualifier.value, r.success))
    && NodesOk(r)
  }

  predicate IsotpResponseOk(s: Step)
    requires s.isotp.Some? && s.response.Some?
  {
    var rx := Match(s.isotp.value.rxId, {}, {}, {});
    && !s.response.value.hasNodes
    && IsSameId(s.response.value.success, rx)
    && (s.qualifier.Some? ==> IsSameId(s.qualifier.value, rx))
  }

  predicate StepOk(s: Step) {
    && (if s.isotp.Some? then LinkOk(s) else FrameOk(s))
    && if s.response.None? then s.qualifier.None?
       else ResponseOk(s.response.value, s.qualifier) && (s.isotp.Some? ==> IsotpResponseOk(s))
  }

  // ---------- templates ----------

  /** The value a match compares: only the bits under its masks. */
  function Compared(m: Match): W64 {
    m.values * m.masks
  }

  /** The id part of a pattern: the compared bits, always with the frame format unless any id will do. */
  function IdMask(id: CanId, ignoredBits: W32): W32 {
    if ignoredBits == ANY_ID_BITS then {} else (id.Width() - ignoredBits) + EFF
  }

  function IdValue(id: CanId, ignoredBits: W32): W32 {
    if ignoredBits == ANY_ID_BITS then {}
    else id.value * (id.Width() - ignoredBits) + (if id.extended then EFF else {})
  }

  function ToPattern(m: Match): Pattern {
    Pattern(IdValue(m.id, m.ignoredBits), IdMask(m.id, m.ignoredBits), m.masks, Compared(m))
  }

  /** With a qualifier, its id replaces the response's and its bits are left to the expect value. */
  function Qualified(success: Match, id: CanId, ignoredBits: W32, masks: W64): Pattern {
    Pattern(IdValue(id, ignoredBits), IdMask(id, ignoredBits), success.masks + masks, Compared(success) - masks)
  }

  function BuildAdvance(r: Response, qualifier: Option<Match>): Pattern {
    match qualifier
    case None => ToPattern(r.success)
    case Some(q) => Qualified(r.success, q.id, q.ignoredBits, q.masks)
  }

  /** The qualifier's values where it compares, the response's elsewhere. */
  function ExpectValue(r: Response, q: Match): W64 {
    (Compared(r.success) - q.masks) + Compared(q)
  }

  function ToIsotpParams(link: IsotpSpec): I.Params {
    I.Params(ToU32(link.rxId.ToWire()), link.padded, link.addressByte, link.fd, link.bitrateSwitch,
             if link.addressByte then link.txAddress else 0, if link.addressByte then link.rxAddress else 0,
             if link.padded then link.padding else 0,
             if link.fd then link.fdDataLength else PAYLOAD_MAX_CLASSIC,
             link.blockSize, link.stMin)
  }

  const NO_ISOTP := I.Params(0, false, false, false, false, 0, 0, 0, 0, 0, 0)

  const EMPTY_TEMPLATE := Template(0, MODE_NONE, false, false, 0, 0, 0, 0, TYPE_GENERIC, None, None, None, NO_ISOTP, false)

  function BuildTemplate(s: Step): Template
    requires StepOk(s)
  {
    var plain := EMPTY_TEMPLATE.(gapUs := s.gapUs);
    var base := if s.isotp.Some? then plain.(kind := TYPE_ISOTP, isotp := ToIsotpParams(s.isotp.value)) else plain;
    match s.response
    case None => base
    case Some(r) =>
      base.(mode := if !r.hasNodes then MODE_COUNT else if r.allowedMissing == 0 then MODE_ROSTER_ALL else MODE_ROSTER_K,
            countK := if r.hasNodes then |r.nodes| - r.allowedMissing else 1,
            timeoutMs := r.timeoutMs, soft := r.continueOnTimeout, mismatchAbort := r.onMismatchAbort,
            advance := Some(BuildAdvance(r, s.qualifier)),
            abort := if r.failure.Some? then Some(ToPattern(r.failure.value)) else None,
            extend := if r.pending.Some? then Some(ToPattern(r.pending.value)) else None,
            extendTimeoutMs := if r.pending.Some? then r.timeoutAfterPendingMs else 0)
  }

  function ToRoster(r: Response): Roster {
    if r.nodeFrom == NODE_IN_BYTE then Roster(Origin(SOURCE_PAYLOAD, 0, r.nodeByte, Ones(8)), r.nodes)
    else
      var ignored := r.success.ignoredBits;
      Roster(Origin(SOURCE_CAN_ID, LowestSetBit(ignored), 0, ignored), r.nodes)
  }

  // ---------- records ----------

  function ToWireU32(id: CanId): u32 {
    ToU32(id.ToWire())
  }

  function FrameRecord(s: Step, bitrateSwitch: bool, templateId: u8): TxnStep
    requires StepOk(s) && (s.isotp.None? || s.data.None?)
  {
    var expects := s.qualifier.Some?;
    var value: u64 := if expects then ToU64(ExpectValue(s.response.value, s.qualifier.value)) else 0;
    if s.data.None? then
      var canId: u32 := if s.isotp.Some? then ToWireU32(s.isotp.value.txId) else 0;
      TxnStep(templateId, expects, true, false, false, 0, canId, value, [])
    else
      var flags: u8 := if |s.data.value| <= PAYLOAD_MAX_CLASSIC then 0
                       else FLAG_FD + (if bitrateSwitch then FLAG_BRS else 0);
      TxnStep(templateId, expects, false, false, false, flags, ToWireU32(s.id), value, s.data.value)
  }

  function MessageRecord(s: Step, templateId: u8, piece: seq<u8>, last: bool): TxnStep
    requires StepOk(s) && s.isotp.Some? && |piece| <= MESSAGE_RECORD_BYTES
  {
    var expects := last && s.qualifier.Some?;
    var value: u64 := if expects then ToU64(ExpectValue(s.response.value, s.qualifier.value)) else 0;
    TxnStep(templateId, expects, false, true, !last, 0, ToWireU32(s.isotp.value.txId), value, piece)
  }

  /** A message cut into records of at most 248 bytes, all but the last continued. */
  function MessageRecords(s: Step, templateId: u8, rest: seq<u8>): (records: seq<TxnStep>)
    requires StepOk(s) && s.isotp.Some? && rest != []
    decreases |rest|
  {
    if |rest| <= MESSAGE_RECORD_BYTES then [MessageRecord(s, templateId, rest, true)]
    else [MessageRecord(s, templateId, rest[..MESSAGE_RECORD_BYTES], false)]
         + MessageRecords(s, templateId, rest[MESSAGE_RECORD_BYTES..])
  }

  function BuildRecords(s: Step, bitrateSwitch: bool, templateId: u8): seq<TxnStep>
    requires StepOk(s)
  {
    if s.isotp.Some? && s.data.Some? then MessageRecords(s, templateId, s.data.value)
    else [FrameRecord(s, bitrateSwitch, templateId)]
  }

  // ---------- one step ----------

  datatype Builder = Builder(
    bitrateSwitch: bool, roster: Option<Roster>, templates: seq<Template>, lastTemplate: Option<nat>)

  /** What goes out for one step, in this order. */
  datatype Build = Build(roster: Option<Roster>, template: Option<Template>, records: seq<TxnStep>)

  datatype Outcome = Refused | Built(builder: Builder, build: Build)

  predicate BuilderOk(b: Builder) {
    && |b.templates| <= TEMPLATES_MAX
    && (b.lastTemplate.Some? ==> b.lastTemplate.value < |b.templates|)
    && forall i | 0 <= i < |b.templates| :: b.templates[i].id == i
  }

  function FirstLike(templates: seq<Template>, t: Template, i: nat): (found: Option<nat>)
    requires i <= |templates|
    ensures found.Some? ==> i <= found.value < |templates| && templates[found.value].(id := 0) == t
    ensures found.None? ==> forall k | i <= k < |templates| :: templates[k].(id := 0) != t
    decreases |templates| - i
  {
    if i == |templates| then None
    else if templates[i].(id := 0) == t then Some(i)
    else FirstLike(templates, t, i + 1)
  }

  function FindTemplate(b: Builder, t: Template): (found: Option<nat>)
    requires BuilderOk(b)
    ensures found.Some? ==> found.value < |b.templates| && b.templates[found.value].(id := 0) == t
    ensures found.None? ==> forall k | 0 <= k < |b.templates| :: b.templates[k].(id := 0) != t
  {
    if b.lastTemplate.Some? && b.templates[b.lastTemplate.value].(id := 0) == t then b.lastTemplate
    else FirstLike(b.templates, t, 0)
  }

  datatype Placed = NoRoom | Placed(templates: seq<Template>, index: nat, defined: Option<Template>)

  /** Where a template goes: where its like already is, or at the end while there is room. */
  function PlaceTemplate(b: Builder, t: Template): (p: Placed)
    requires BuilderOk(b) && t.id == 0
    ensures p.Placed? ==>
      && p.index < |p.templates| <= TEMPLATES_MAX && p.templates[p.index] == t.(id := p.index)
      && (forall i | 0 <= i < |p.templates| :: p.templates[i].id == i)
      && p.templates == b.templates + (if p.defined.Some? then [p.defined.value] else [])
      && (p.defined.Some? ==> p.index == |b.templates| && p.defined.value == t.(id := p.index))
    ensures p.NoRoom? ==> |b.templates| == TEMPLATES_MAX && forall k | 0 <= k < |b.templates| :: b.templates[k].(id := 0) != t
    ensures p.Placed? && p.defined.Some? ==> forall k | 0 <= k < |b.templates| :: b.templates[k].(id := 0) != t
  {
    var n := |b.templates|;
    match FindTemplate(b, t)
    case Some(i) =>
      assert b.templates[i].(id := 0) == t && b.templates[i].id == i;
      assert b.templates + [] == b.templates;
      Placed(b.templates, i, None)
    case None =>
      if n == TEMPLATES_MAX then NoRoom else Placed(b.templates + [t.(id := n)], n, Some(t.(id := n)))
  }

  predicate NamesNodes(s: Step) {
    s.response.Some? && s.response.value.hasNodes
  }

  function BuildStep(b: Builder, s: Step): Outcome
    requires BuilderOk(b)
  {
    if !StepOk(s) then Refused
    else if NamesNodes(s) && b.roster.Some? && b.roster.value != ToRoster(s.response.value) then Refused
    else
      var roster := if NamesNodes(s) then Some(ToRoster(s.response.value)) else b.roster;
      match PlaceTemplate(b, BuildTemplate(s))
      case NoRoom => Refused
      case Placed(templates, i, defined) =>
        Built(Builder(b.bitrateSwitch, roster, templates, Some(i)),
              Build(if b.roster.None? then roster else None, defined, BuildRecords(s, b.bitrateSwitch, i)))
  }
}
