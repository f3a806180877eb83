/**
  Script conditions, the masked patterns they resolve to and the matches the
  API takes (src/client/txn_script/script_resolver.c, toMatch in
  src/client/txn_script/script_compiler.c). Names are already looked up: a term
  carries the number it compares with.
 */
module Conditions {
  import opened Frames
  import opened ByteStrings
  import opened MachineWords
  import opened AgentRules
  import opened TransactionBuilder

  /** id, byte[first] or byte[first..last], each compared with a number. */
  datatype Term =
    | IdTerm(value: W32, valueExtended: bool, mask: Option<W64>, maskLong: bool, shift: u8)
    | ByteTerm(first: u8, mask: Option<W64>, shift: u8, value: W32)
    | BytesTerm(first: u8, last: u8, number: W32, littleEndian: bool)

  datatype ScriptPattern = ScriptPattern(
    hasId: bool, extended: bool, canId: W32, canMask: W32, payloadValue: W64, payloadMask: W64)

  const NO_PATTERN := ScriptPattern(false, false, {}, {}, {}, {})

  predicate TermExtended(t: Term) {
    t.IdTerm? && (t.valueExtended || (t.mask.Some? && t.maskLong))
  }

  function IdTermMask(t: Term): W32
    requires t.IdTerm?
  {
    if t.mask.Some? then t.mask.value * Ones(32)
    else if TermExtended(t) then EXTENDED_ID_MASK else STANDARD_ID_MASK
  }

  /** The mask of a byte term is cut to 32 bits before it is checked. */
  function ByteTermMask(t: Term): W32
    requires t.ByteTerm?
  {
    if t.mask.Some? then t.mask.value * Ones(32) else Ones(8)
  }

  predicate TermOk(t: Term) {
    match t
    case IdTerm(value, _, mask, _, shift) =>
      shift < 32 && (mask.Some? ==> mask.value <= Ones(29)) && value <= IdTermMask(t)
    case ByteTerm(first, _, shift, value) =>
      first < 8 && ByteTermMask(t) <= Ones(8) && shift < 8 && value <= ByteTermMask(t)
    case BytesTerm(first, last, number, _) =>
      first <= last < 8 && last - first + 1 <= 4 && number <= Ones(8 * (last - first + 1))
  }

  /** Bit i of the payload is compared, and with a one, by a range of bytes. */
  predicate RangeCovers(t: Term, i: nat)
    requires t.BytesTerm?
  {
    t.first <= i / 8 <= t.last
  }

  predicate RangeWants(t: Term, i: nat)
    requires t.BytesTerm?
  {
    RangeCovers(t, i) && 8 * (if t.littleEndian then i / 8 - t.first else t.last - i / 8) + i % 8 in t.number
  }

  /** What a term adds to the payload pattern. */
  function TermMask(t: Term): W64
    requires TermOk(t)
  {
    match t
    case IdTerm(_, _, _, _, _) => {}
    case ByteTerm(first, _, shift, _) => Shl(ByteTermMask(t), 8 * first + shift, 64)
    case BytesTerm(_, _, _, _) => set i: nat | i < 64 && RangeCovers(t, i)
  }

  function TermValue(t: Term): W64
    requires TermOk(t)
  {
    match t
    case IdTerm(_, _, _, _, _) => {}
    case ByteTerm(first, _, shift, value) => Shl(value, 8 * first + shift, 64)
    case BytesTerm(_, _, _, _) => set i: nat | i < 64 && RangeWants(t, i)
  }

  /** The loop that places a number's bytes, in either order. */
  method PlaceRange(t: Term) returns (value: W64, mask: W64)
    requires t.BytesTerm? && TermOk(t)
    ensures value == TermValue(t) && mask == TermMask(t)
  {
    value, mask := {}, {};
    var k: nat := 0;
    while k < t.last - t.first + 1
      invariant 0 <= k <= t.last - t.first + 1
      invariant forall i: nat | i < 64 :: i in mask <==> t.first <= i / 8 < t.first + k
      invariant forall i: nat | i < 64 :: i in value <==> i / 8 < t.first + k && RangeWants(t, i)
    {
      var byte := if t.littleEndian then k else t.last - t.first - k;
      var bits := Shl(Shr(t.number, 8 * byte) * Ones(8), 8 * (t.first + k), 64);
      assert forall i: nat | i < 64 :: i in bits <==> i / 8 == t.first + k && RangeWants(t, i);
      value := value + bits;
      mask := mask + Shl(Ones(8), 8 * (t.first + k), 64);
      k := k + 1;
    }
  }

  function MergeId(p: ScriptPattern, value: W32, mask: W32): Option<ScriptPattern> {
    if p.canId * (p.canMask * mask) != value * (p.canMask * mask) then None
    else Some(p.(canMask := p.canMask + mask, canId := p.canId + value * mask))
  }

  function MergePayload(p: ScriptPattern, value: W64, mask: W64): Option<ScriptPattern> {
    if p.payloadValue * (p.payloadMask * mask) != value * (p.payloadMask * mask) then None
    else Some(p.(payloadMask := p.payloadMask + mask, payloadValue := p.payloadValue + value * mask))
  }

  function AddTerm(p: ScriptPattern, t: Term): Option<ScriptPattern> {
    if !TermOk(t) then None
    else if t.IdTerm? then
      MergeId(p.(hasId := true, extended := p.extended || TermExtended(t)),
              Shl(t.value, t.shift, 32), Shl(IdTermMask(t), t.shift, 32))
    else MergePayload(p, TermValue(t), TermMask(t))
  }

  function AddTerms(p: ScriptPattern, terms: seq<Term>): Option<ScriptPattern> {
    FoldAll(AddTerm, p, terms)
  }

  /** The frame format joins the id terms once they are all in. */
  function WithFormat(p: ScriptPattern): ScriptPattern {
    if p.hasId then p.(canMask := p.canMask + EFF, canId := if p.extended then p.canId + EFF else p.canId) else p
  }

  function Resolve(terms: seq<Term>): Option<ScriptPattern> {
    match AddTerms(NO_PATTERN, terms)
    case None => None
    case Some(p) => Some(WithFormat(p))
  }

  /** The resolver's loop over the terms of a condition. */
  method ResolveCondition(terms: seq<Term>) returns (pattern: Option<ScriptPattern>)
    ensures pattern == Resolve(terms)
  {
    var merged := FoldLoop(AddTerm, NO_PATTERN, terms);
    if merged.None? {
      return None;
    }
    var p := merged.value;
    if p.hasId {
      p := p.(canMask := p.canMask + EFF);
      if p.extended {
        p := p.(canId := p.canId + EFF);
      }
    }
    return Some(p);
  }

  function ToMatch(p: ScriptPattern): Match {
    var width := if p.extended then EXTENDED_ID_MASK else STANDARD_ID_MASK;
    Match(CanId(p.canId * width, p.extended), if p.hasId then width - p.canMask else ANY_ID_BITS,
          p.payloadMask, p.payloadValue)
  }

  /** A step's qualifier: without an id term it keeps the response's id. */
  function QualifierMatch(p: ScriptPattern, success: Match): Match {
    if p.hasId then ToMatch(p) else ToMatch(p).(id := success.id, ignoredBits := success.ignoredBits)
  }
}
