/**
  Transaction messages, what the agent accepts of them and when a frame matches
  (the predicates of src/agent/domain/transaction_runner.c).
 */
module AgentRules {
  import opened Frames
  import opened MachineWords
  import opened StepCodec
  import I = IsotpLink

  const ROSTER_MAX := 64

  const MODE_NONE: u8 := 0
  const MODE_COUNT: u8 := 1
  const MODE_ROSTER_ALL: u8 := 2
  const MODE_ROSTER_K: u8 := 3
  const MODE_MAX: u8 := 4

  const TYPE_GENERIC: u8 := 0
  const TYPE_ISOTP: u8 := 1

  const SOURCE_CAN_ID: u8 := 1
  const SOURCE_PAYLOAD: u8 := 2

  datatype Pattern = Pattern(canId: W32, canMask: W32, payloadMask: W64, payloadValue: W64)

  /** TxnTemplateMessage; a pattern is present when its bit is set in patterns_present. */
  datatype Template = Template(
    id: u8, mode: u8, soft: bool, mismatchAbort: bool, countK: u8,
    timeoutMs: u32, gapUs: u32, extendTimeoutMs: u32, kind: u8,
    advance: Option<Pattern>, abort: Option<Pattern>, extend: Option<Pattern>,
    isotp: I.Params, isotpUnknownFlags: bool)

  datatype Origin = Origin(source: u8, shift: u8, payloadOffset: u8, mask: W32)

  datatype Roster = Roster(origin: Origin, nodes: seq<W32>)

  // ---------- definitions ----------

  predicate IsRosterMode(mode: u8) {
    mode == MODE_ROSTER_ALL || mode == MODE_ROSTER_K
  }

  predicate IsWaitingMode(mode: u8) {
    mode != MODE_NONE
  }

  predicate IsRosterValid(r: Roster) {
    && 0 < |r.nodes| <= ROSTER_MAX
    && (r.origin.source == SOURCE_CAN_ID || r.origin.source == SOURCE_PAYLOAD)
    && r.origin.shift < 32
    && r.origin.payloadOffset < PAYLOAD_MAX_FD
  }

  predicate IsIsotpDataLengthValid(p: I.Params) {
    if !p.fd then p.txDataLength == PAYLOAD_MAX_CLASSIC && !p.bitRateSwitch
    else PAYLOAD_MAX_CLASSIC <= p.txDataLength && IsPayloadLengthValid(p.txDataLength, FLAG_FD)
  }

  predicate IsTypeValid(t: Template) {
    || t.kind == TYPE_GENERIC
    || (&& t.kind == TYPE_ISOTP && !t.isotpUnknownFlags && IsIsotpDataLengthValid(t.isotp)
        && (t.mode == MODE_NONE || t.mode == MODE_COUNT))
  }

  /** What the agent holds of a transaction's definitions. */
  datatype Definitions = Definitions(templates: map<u8, Template>, roster: Option<Roster>)

  const NO_DEFINITIONS := Definitions(map[], None)

  function RosterCount(d: Definitions): nat {
    if d.roster.Some? then |d.roster.value.nodes| else 0
  }

  predicate IsTemplateSound(d: Definitions, t: Template) {
    && t.mode < MODE_MAX && IsTypeValid(t)
    && (IsWaitingMode(t.mode) ==> t.timeoutMs != 0)
    && (t.mode == MODE_COUNT || t.mode == MODE_ROSTER_K ==> t.countK != 0)
    && (IsRosterMode(t.mode) ==> RosterCount(d) != 0)
    && (t.mode == MODE_ROSTER_K ==> t.countK <= RosterCount(d))
  }

  predicate IsTemplateValid(d: Definitions, t: Template) {
    t.id < TEMPLATES_MAX && t.id !in d.templates && IsTemplateSound(d, t)
  }

  predicate AcceptsRoster(d: Definitions, r: Roster) {
    d.roster.None? && IsRosterValid(r)
  }

  function DefineRoster(d: Definitions, r: Roster): Definitions {
    d.(roster := Some(r))
  }

  function DefineTemplate(d: Definitions, t: Template): Definitions {
    d.(templates := d.templates[t.id := t])
  }

  predicate FitsTemplate(s: TxnStep, t: Template) {
    if t.kind == TYPE_ISOTP then s.isMessage || s.expectOnly else !s.isMessage
  }

  /** A record the agent queues: valid, naming a template it fits. */
  predicate AcceptsRecord(d: Definitions, s: TxnStep) {
    && IsStepValid(s) && s.templateId in d.templates
    && FitsTemplate(s, d.templates[s.templateId])
    && (s.expectOnly ==> IsWaitingMode(d.templates[s.templateId].mode))
  }

  // ---------- matching ----------

  predicate PayloadBit(payload: seq<u8>, i: nat) {
    i / 8 < |payload| && BitOf(payload[i / 8], i % 8)
  }

  /** The first 8 payload bytes as a little-endian word; missing bytes read as zero. */
  function PayloadWord(payload: seq<u8>): W64 {
    set i: nat | i < 64 && PayloadBit(payload, i)
  }

  predicate MatchesId(p: Pattern, canId: set<nat>) {
    canId * p.canMask == p.canId * p.canMask
  }

  predicate MatchesPayload(word: set<nat>, mask: set<nat>, value: set<nat>) {
    word * mask == value * mask
  }

  predicate MatchesPattern(p: Option<Pattern>, canId: set<nat>, word: set<nat>) {
    p.Some? && MatchesId(p.value, canId) && MatchesPayload(word, p.value.payloadMask, p.value.payloadValue)
  }

  /** The value the advance pattern compares for this step. */
  function ExpectedValue(s: TxnStep, advance: Pattern): W64 {
    if s.expectsValue then OfU64(s.expectValue) else advance.payloadValue
  }

  datatype Verdict = Ignored | Extends | Aborts | Advances | Mismatch

  /** What a frame means to a waiting step: extend first, then abort, then advance. */
  function Judge(t: Template, s: TxnStep, canId: set<nat>, word: set<nat>): Verdict {
    if MatchesPattern(t.extend, canId, word) then Extends
    else if MatchesPattern(t.abort, canId, word) then Aborts
    else if t.advance.None? || !MatchesId(t.advance.value, canId) then Ignored
    else if MatchesPayload(word, t.advance.value.payloadMask, ExpectedValue(s, t.advance.value)) then Advances
    else if t.mismatchAbort then Mismatch
    else Ignored
  }

  /** The loop that builds the payload word byte by byte. */
  method ComputePayloadWord(payload: seq<u8>) returns (word: W64)
    ensures word == PayloadWord(payload)
  {
    word := {};
    var k := 0;
    while k < 8 && k < |payload|
      invariant 0 <= k <= 8 && k <= |payload|
      invariant forall i: nat | i < 64 :: i in word <==> i / 8 < k && PayloadBit(payload, i)
    {
      var byte := Shl(BitsOf(payload[k], 8), 8 * k, 64);
      assert forall i: nat | i < 64 :: i in byte <==> i / 8 == k && PayloadBit(payload, i);
      word := word + byte;
      k := k + 1;
    }
  }
}
