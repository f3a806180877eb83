/**
  A script condition keeps its meaning down to the agent: what the resolver,
  the match, the template and the expect value make of it leads the agent to
  the verdict on a data frame that the terms call for: pending first, then
  failure, then success.
 */
module Meaning {
  import opened Frames
  import opened MachineWords
  import opened StepCodec
  import opened AgentRules
  import opened TransactionBuilder
  import opened Conditions

  // ---------- what a term means ----------

  /** A frame as a script sees it: neither an error frame nor a remote request. */
  datatype DataFrame = DataFrame(id: CanId, payload: seq<u8>)

  /** Byte `k` of a payload word. */
  function ByteOf(word: set<nat>, k: nat): set<nat> {
    Shr(word, 8 * k) * Ones(8)
  }

  /** (id >> shift) & mask == value, or the whole id where no mask is written. */
  predicate IdHolds(t: Term, id: set<nat>)
    requires t.IdTerm?
  {
    if t.mask.Some? then Shr(id, t.shift) * t.mask.value == t.value else Shr(id, t.shift) == t.value
  }

  /** (byte >> shift) & mask == value; a range of bytes is the number, byte by byte in its order. */
  predicate PayloadHolds(t: Term, word: set<nat>) {
    match t
    case IdTerm(_, _, _, _, _) => true
    case ByteTerm(first, _, shift, value) => Shr(ByteOf(word, first), shift) * ByteTermMask(t) == value
    case BytesTerm(first, last, number, littleEndian) =>
      forall k: nat | first <= k <= last :: ByteOf(word, k) == ByteOf(number, if littleEndian then k - first else last - k)
  }

  predicate PayloadTermsHold(terms: seq<Term>, word: set<nat>) {
    forall t | t in terms :: PayloadHolds(t, word)
  }

  predicate IdTermsHold(terms: seq<Term>, id: set<nat>) {
    forall t | t in terms && t.IdTerm? :: IdHolds(t, id)
  }

  predicate HasIdTerm(terms: seq<Term>) {
    exists t | t in terms :: t.IdTerm?
  }

  /** A condition is about extended frames once one of its id terms is. */
  predicate IsExtended(terms: seq<Term>) {
    exists t | t in terms :: TermExtended(t)
  }

  predicate IdPartHolds(terms: seq<Term>, id: CanId) {
    (HasIdTerm(terms) ==> id.extended == IsExtended(terms)) && IdTermsHold(terms, id.value)
  }

  /** Every term holds of the frame. */
  predicate Holds(terms: seq<Term>, f: DataFrame) {
    IdPartHolds(terms, f.id) && PayloadTermsHold(terms, PayloadWord(f.payload))
  }

  // ---------- one term against its pattern ----------

  /**
    A term that can be said with a mask and a value: a byte term whose shifted
    mask stays in its byte (or whose value does, at the end of the word), an id
    term whose shifted value stays in the id, and whose mask, where none is
    written, covers the rest of the id.
   */
  predicate Sayable(t: Term, extended: bool)
    requires TermOk(t)
  {
    match t
    case IdTerm(value, _, mask, _, shift) =>
      var width := CanId({}, extended).Width();
      && (forall i | i in value :: i + shift in width)
      && (mask.None? ==> forall i | i in width && i >= shift :: i - shift in IdTermMask(t))
    case ByteTerm(first, _, shift, value) =>
      || (forall i | i in ByteTermMask(t) :: i + shift < 8)
      || (first == 7 && forall i | i in value :: i + shift < 8)
    case BytesTerm(_, _, _, _) => true
  }

  /** Comparing after a shift down is comparing with mask and value shifted up, if none of the value is lost. */
  lemma ShiftedCompare(x: set<nat>, m: set<nat>, v: set<nat>, s: nat, limit: nat)
    requires (forall i | i in v :: i + s < limit) && forall i | i in x :: i < limit
    ensures x * Shl(m, s, limit) == Shl(v, s, limit) <==> Shr(x, s) * m == v
  {
    if x * Shl(m, s, limit) == Shl(v, s, limit) {
      forall i: nat ensures i in Shr(x, s) * m <==> i in v {
        assert i + s in x * Shl(m, s, limit) <==> i + s in Shl(v, s, limit);
      }
    }
    if Shr(x, s) * m == v {
      forall k: nat ensures k in x * Shl(m, s, limit) <==> k in Shl(v, s, limit) {
        if k >= s {
          assert k - s in Shr(x, s) * m <==> k - s in v;
        }
      }
    }
  }

  /** What a byte term sees of its byte is what the shifted word shows under its mask. */
  lemma ByteSeen(t: Term, word: W64)
    requires t.ByteTerm? && TermOk(t)
    ensures var seen := Shr(ByteOf(word, t.first), t.shift) * ByteTermMask(t);
      && (forall i: nat :: i in seen <==> i + t.shift < 8 && i + (8 * t.first + t.shift) in word && i in ByteTermMask(t))
      && (Sayable(t, false) ==> (seen == t.value <==> Shr(word, 8 * t.first + t.shift) * ByteTermMask(t) == t.value))
  {
    var at := 8 * t.first + t.shift;
    var seen := Shr(ByteOf(word, t.first), t.shift) * ByteTermMask(t);
    forall i: nat ensures i in seen <==> i + t.shift < 8 && i + at in word && i in ByteTermMask(t) {
    }
    if Sayable(t, false) {
      assert Shr(word, at) * ByteTermMask(t) == seen;
    }
  }

  lemma ByteShown(t: Term, word: W64)
    requires t.ByteTerm? && TermOk(t) && Sayable(t, false)
    ensures PayloadHolds(t, word) <==> Shr(word, 8 * t.first + t.shift) * ByteTermMask(t) == t.value
  {
    ByteSeen(t, word);
  }

  lemma ByteTermMeans(t: Term, word: W64)
    requires t.ByteTerm? && TermOk(t) && Sayable(t, false)
    ensures word * TermMask(t) == TermValue(t) <==> PayloadHolds(t, word)
  {
    ByteShown(t, word);
    ShiftedCompare(word, ByteTermMask(t), t.value, 8 * t.first + t.shift, 64);
  }

  /** The byte of the number that a range term compares with payload byte k. */
  function NumberByte(t: Term, k: nat): nat
    requires t.BytesTerm? && t.first <= k <= t.last
  {
    if t.littleEndian then k - t.first else t.last - k
  }

  lemma RangeBit(t: Term, word: W64, k: nat, i: nat)
    requires t.BytesTerm? && TermOk(t) && t.first <= k <= t.last && i < 8
    ensures 8 * k + i in word * TermMask(t) <==> i in ByteOf(word, k)
    ensures 8 * k + i in TermValue(t) <==> i in ByteOf(t.number, NumberByte(t, k))
  {
    assert (8 * k + i) / 8 == k && (8 * k + i) % 8 == i;
  }

  lemma RangeHolds(t: Term, word: W64)
    requires t.BytesTerm? && TermOk(t) && word * TermMask(t) == TermValue(t)
    ensures PayloadHolds(t, word)
  {
    forall k: nat | t.first <= k <= t.last ensures ByteOf(word, k) == ByteOf(t.number, NumberByte(t, k)) {
      forall i: nat | i < 8 ensures i in ByteOf(word, k) <==> i in ByteOf(t.number, NumberByte(t, k)) {
        RangeBit(t, word, k, i);
      }
    }
  }

  lemma RangeMatches(t: Term, word: W64)
    requires t.BytesTerm? && TermOk(t) && PayloadHolds(t, word)
    ensures word * TermMask(t) == TermValue(t)
  {
    forall i: nat | i < 64 ensures i in word * TermMask(t) <==> i in TermValue(t) {
      if RangeCovers(t, i) {
        RangeBit(t, word, i / 8, i % 8);
        assert 8 * (i / 8) + i % 8 == i;
        assert ByteOf(word, i / 8) == ByteOf(t.number, NumberByte(t, i / 8));
      }
    }
  }

  lemma RangeTermMeans(t: Term, word: W64)
    requires t.BytesTerm? && TermOk(t)
    ensures word * TermMask(t) == TermValue(t) <==> PayloadHolds(t, word)
  {
    if word * TermMask(t) == TermValue(t) {
      RangeHolds(t, word);
    } else if PayloadHolds(t, word) {
      RangeMatches(t, word);
    }
  }

  lemma IdTermMeans(t: Term, id: W32, extended: bool)
    requires t.IdTerm? && TermOk(t) && Sayable(t, extended) && id <= CanId({}, extended).Width()
    ensures id * Shl(IdTermMask(t), t.shift, 32) == Shl(t.value, t.shift, 32) <==> IdHolds(t, id)
  {
    ShiftedCompare(id, IdTermMask(t), t.value, t.shift, 32);
    if t.mask.Some? {
      assert IdTermMask(t) == t.mask.value;
    } else {
      assert Shr(id, t.shift) * IdTermMask(t) == Shr(id, t.shift);
    }
  }

  // ---------- terms merged into one pattern ----------

  function IdShare(t: Term): (W32, W32)
    requires t.IdTerm?
  {
    (Shl(IdTermMask(t), t.shift, 32), Shl(t.value, t.shift, 32))
  }

  predicate IdMatches(t: Term, id: set<nat>)
    requires t.IdTerm?
  {
    id * IdShare(t).0 == IdShare(t).1
  }

  predicate PayloadMatches(t: Term, word: set<nat>)
    requires TermOk(t)
  {
    word * TermMask(t) == TermValue(t)
  }

  predicate AllOk(terms: seq<Term>) {
    forall t | t in terms :: TermOk(t)
  }

  predicate AllIdMatch(terms: seq<Term>, id: set<nat>) {
    forall t | t in terms && t.IdTerm? :: IdMatches(t, id)
  }

  predicate AllPayloadMatch(terms: seq<Term>, word: set<nat>)
    requires AllOk(terms)
  {
    forall t | t in terms :: PayloadMatches(t, word)
  }

  /** The pattern says of an id and of a payload what the terms say together. */
  ghost predicate SaysAll(p: ScriptPattern, terms: seq<Term>) {
    && AllOk(terms)
    && p.canId <= p.canMask && p.payloadValue <= p.payloadMask
    && p.hasId == HasIdTerm(terms) && p.extended == IsExtended(terms)
    && (forall id: set<nat> :: id * p.canMask == p.canId <==> AllIdMatch(terms, id))
    && (forall word: set<nat> :: word * p.payloadMask == p.payloadValue <==> AllPayloadMatch(terms, word))
  }

  /** Two masked comparisons that agree where they overlap are one. */
  lemma MergedCompare(m: set<nat>, v: set<nat>, m': set<nat>, v': set<nat>, w: set<nat>)
    requires v <= m && v' <= m' && v * (m * m') == v' * (m * m')
    ensures w * (m + m') == v + v' * m' <==> w * m == v && w * m' == v'
  {
    if w * m == v && w * m' == v' {
      assert w * (m + m') == v + v' * m';
    }
    if w * (m + m') == v + v' * m' {
      forall i ensures i in w * m <==> i in v {
        assert i in w * (m + m') <==> i in v + v' * m';
        assert i in v * (m * m') <==> i in v' * (m * m');
      }
      forall i ensures i in w * m' <==> i in v' {
        assert i in w * (m + m') <==> i in v + v' * m';
        assert i in v * (m * m') <==> i in v' * (m * m');
      }
    }
  }

  lemma TermValueUnderMask(t: Term)
    requires TermOk(t)
    ensures TermValue(t) <= TermMask(t)
    ensures t.IdTerm? ==> IdShare(t).1 <= IdShare(t).0
  {
  }

  lemma TermsAppend(terms: seq<Term>, t: Term)
    requires AllOk(terms) && TermOk(t)
    ensures AllOk(terms + [t])
    ensures HasIdTerm(terms + [t]) <==> HasIdTerm(terms) || t.IdTerm?
    ensures IsExtended(terms + [t]) <==> IsExtended(terms) || TermExtended(t)
    ensures forall id :: AllIdMatch(terms + [t], id) <==> AllIdMatch(terms, id) && (t.IdTerm? ==> IdMatches(t, id))
    ensures forall w :: AllPayloadMatch(terms + [t], w) <==> AllPayloadMatch(terms, w) && PayloadMatches(t, w)
  {
    var more := terms + [t];
    assert t in more && forall u | u in terms :: u in more;
  }

  lemma AddTermSays(p: ScriptPattern, terms: seq<Term>, t: Term)
    requires SaysAll(p, terms) && AddTerm(p, t).Some?
    ensures SaysAll(AddTerm(p, t).value, terms + [t])
  {
    var q := AddTerm(p, t).value;
    TermValueUnderMask(t);
    TermsAppend(terms, t);
    if t.IdTerm? {
      var (m, v) := IdShare(t);
      forall id: set<nat> ensures id * q.canMask == q.canId <==> AllIdMatch(terms + [t], id) {
        MergedCompare(p.canMask, p.canId, m, v, id);
      }
      forall w: set<nat> ensures w * q.payloadMask == q.payloadValue <==> AllPayloadMatch(terms + [t], w) {
        assert PayloadMatches(t, w);
      }
    } else {
      forall w: set<nat> ensures w * q.payloadMask == q.payloadValue <==> AllPayloadMatch(terms + [t], w) {
        MergedCompare(p.payloadMask, p.payloadValue, TermMask(t), TermValue(t), w);
      }
    }
  }

  lemma {:induction false} AddTermsSays(p: ScriptPattern, done: seq<Term>, rest: seq<Term>)
    requires SaysAll(p, done) && AddTerms(p, rest).Some?
    ensures SaysAll(AddTerms(p, rest).value, done + rest)
    decreases |rest|
  {
    if rest == [] {
      assert done + rest == done;
    } else {
      AddTermSays(p, done, rest[0]);
      AddTermsSays(AddTerm(p, rest[0]).value, done + [rest[0]], rest[1..]);
      assert done + [rest[0]] + rest[1..] == done + rest;
    }
  }

  // ---------- exactly when a term can be said ----------

  /** No byte holds a value that leaves it, but the word with the value spilt into the next byte matches. */
  lemma SpiltValueMatches(t: Term, i: nat)
    requires t.ByteTerm? && TermOk(t) && i in t.value && i + t.shift >= 8
    ensures PayloadMatches(t, TermValue(t)) && !PayloadHolds(t, TermValue(t))
  {
    TermValueUnderMask(t);
    ByteSeen(t, TermValue(t));
    assert i !in Shr(ByteOf(TermValue(t), t.first), t.shift) * ByteTermMask(t);
  }

  /** The byte term does not see a one beyond its byte. */
  lemma SpiltUnseen(t: Term, i: nat, word: W64)
    requires t.ByteTerm? && TermOk(t) && i + t.shift >= 8 && forall k | k in t.value :: k + t.shift < 8
    requires word == TermValue(t) + {i + (8 * t.first + t.shift)}
    ensures PayloadHolds(t, word)
  {
    var at := 8 * t.first + t.shift;
    ByteSeen(t, word);
    TermValueUnderMask(t);
    var seen := Shr(ByteOf(word, t.first), t.shift) * ByteTermMask(t);
    forall k: nat ensures k in seen <==> k in t.value {
      assert k + t.shift < 8 ==> (k + at in word <==> k + at in TermValue(t));
    }
  }

  /** A mask that leaves its byte misses frames whose next byte has a one there. */
  lemma SpiltMaskMisses(t: Term, i: nat) returns (word: W64)
    requires t.ByteTerm? && TermOk(t) && t.first < 7
    requires i in ByteTermMask(t) && i + t.shift >= 8 && forall k | k in t.value :: k + t.shift < 8
    ensures !PayloadMatches(t, word) && PayloadHolds(t, word)
  {
    var at := 8 * t.first + t.shift;
    word := TermValue(t) + {i + at};
    assert i + at in word * TermMask(t) && i + at !in TermValue(t);
    SpiltUnseen(t, i, word);
  }

  lemma ByteTermSaidExactly(t: Term)
    requires t.ByteTerm? && TermOk(t)
    ensures (forall word: W64 :: PayloadMatches(t, word) <==> PayloadHolds(t, word)) <==> Sayable(t, false)
  {
    if Sayable(t, false) {
      forall word: W64 ensures PayloadMatches(t, word) <==> PayloadHolds(t, word) {
        ByteTermMeans(t, word);
      }
    } else if i :| i in t.value && i + t.shift >= 8 {
      SpiltValueMatches(t, i);
    } else {
      var i :| i in ByteTermMask(t) && i + t.shift >= 8;
      var word := SpiltMaskMisses(t, i);
    }
  }

  /** The comparison that reaches the agent: within the id's width. */
  predicate IdMatchesWithin(t: Term, id: set<nat>, width: set<nat>)
    requires t.IdTerm?
  {
    id * (IdShare(t).0 * width) == IdShare(t).1 * width
  }

  /** No id holds a value that leaves it, but what is left of the value within the width matches. */
  lemma LostIdValueMatches(t: Term, width: W32, i: nat)
    requires t.IdTerm? && TermOk(t) && i in t.value && i + t.shift !in width
    ensures var id := IdShare(t).1 * width; IdMatchesWithin(t, id, width) && !IdHolds(t, id)
  {
    var (m, v) := IdShare(t);
    TermValueUnderMask(t);
    assert (v * width) * (m * width) == v * width;
    assert i !in Shr(v * width, t.shift);
  }

  /** A mask that leaves bits of the id out accepts ids that differ in them. */
  lemma UncoveredIdBitMatches(t: Term, width: W32, i: nat)
    requires t.IdTerm? && TermOk(t) && t.mask.None?
    requires i in width && i >= t.shift && i - t.shift !in IdTermMask(t)
    ensures var id := IdShare(t).1 * width + {i}; IdMatchesWithin(t, id, width) && !IdHolds(t, id)
  {
    var (m, v) := IdShare(t);
    TermValueUnderMask(t);
    assert (v * width + {i}) * (m * width) == v * width;
    assert i - t.shift in Shr(v * width + {i}, t.shift) && i - t.shift !in t.value;
  }

  lemma SayableIdMeans(t: Term, id: W32, extended: bool)
    requires t.IdTerm? && TermOk(t) && Sayable(t, extended) && id <= CanId({}, extended).Width()
    ensures IdMatchesWithin(t, id, CanId({}, extended).Width()) <==> IdHolds(t, id)
  {
    var width := CanId({}, extended).Width();
    var (m, v) := IdShare(t);
    IdTermMeans(t, id, extended);
    assert v * width == v && id * (m * width) == id * m;
  }

  lemma UnsayableId(t: Term, extended: bool) returns (id: W32)
    requires t.IdTerm? && TermOk(t) && !Sayable(t, extended)
    ensures id <= CanId({}, extended).Width()
    ensures IdMatchesWithin(t, id, CanId({}, extended).Width()) && !IdHolds(t, id)
  {
    var width := CanId({}, extended).Width();
    var v := IdShare(t).1;
    if i :| i in t.value && i + t.shift !in width {
      LostIdValueMatches(t, width, i);
      id := v * width;
    } else {
      var i :| i in width && i >= t.shift && i - t.shift !in IdTermMask(t);
      UncoveredIdBitMatches(t, width, i);
      id := v * width + {i};
    }
  }

  lemma IdTermSaidExactly(t: Term, extended: bool)
    requires t.IdTerm? && TermOk(t)
    ensures var width := CanId({}, extended).Width();
      (forall id: W32 | id <= width :: IdMatchesWithin(t, id, width) <==> IdHolds(t, id)) <==> Sayable(t, extended)
  {
    if Sayable(t, extended) {
      forall id: W32 | id <= CanId({}, extended).Width()
        ensures IdMatchesWithin(t, id, CanId({}, extended).Width()) <==> IdHolds(t, id)
      {
        SayableIdMeans(t, id, extended);
      }
    } else {
      var id := UnsayableId(t, extended);
    }
  }

  // ---------- a whole condition ----------

  predicate AllSayable(terms: seq<Term>)
    requires AllOk(terms)
  {
    forall t | t in terms :: Sayable(t, IsExtended(terms))
  }

  lemma ResolvedSays(terms: seq<Term>)
    requires Resolve(terms).Some?
    ensures SaysAll(AddTerms(NO_PATTERN, terms).value, terms)
  {
    AddTermsSays(NO_PATTERN, [], terms);
    assert [] + terms == terms;
  }

  lemma {:induction false} IdStaysWithin(p: ScriptPattern, rest: seq<Term>, width: set<nat>)
    requires AddTerms(p, rest).Some? && p.canId <= width
    requires forall t | t in rest && t.IdTerm? :: IdShare(t).1 <= width
    ensures AddTerms(p, rest).value.canId <= width
    decreases |rest|
  {
    if rest != [] {
      assert rest[0] in rest;
      IdStaysWithin(AddTerm(p, rest[0]).value, rest[1..], width);
    }
  }

  /** The id part of a match, as the agent compares it with the id on the wire. */
  predicate IdPartMatches(m: Match, wire: set<nat>) {
    wire * IdMask(m.id, m.ignoredBits) == IdValue(m.id, m.ignoredBits) * IdMask(m.id, m.ignoredBits)
  }

  /** With the format bit, the masked comparison is the comparison of formats and ids. */
  lemma FormatCompare(id: CanId, canId: set<nat>, canMask: set<nat>, extended: bool)
    requires id.IsValid() && canId <= CanId({}, extended).Width() && canId <= canMask
    ensures var mask := CanId({}, extended).Width() * canMask + EFF;
      var value := if extended then canId + EFF else canId;
      id.ToWire() * mask == value * mask <==> id.extended == extended && id.value * canMask == canId
  {
    var width := CanId({}, extended).Width();
    var mask := width * canMask + EFF;
    var value := if extended then canId + EFF else canId;
    assert 31 !in width && 31 !in id.value;
    if id.ToWire() * mask == value * mask {
      assert 31 in id.ToWire() * mask <==> 31 in value * mask;
      forall i ensures i in id.value * canMask <==> i in canId {
        assert i in id.ToWire() * mask <==> i in value * mask;
      }
    }
    if id.extended == extended && id.value * canMask == canId {
      forall i ensures i in id.ToWire() * mask <==> i in value * mask {
        assert i in id.value * canMask <==> i in canId;
      }
    }
  }

  /** The id part of a resolved condition reaches the agent as its terms say it. */
  lemma IdPartMeans(terms: seq<Term>, p: ScriptPattern, id: CanId)
    requires SaysAll(p, terms) && AllSayable(terms) && id.IsValid()
    requires p.hasId ==> p.canId <= CanId({}, p.extended).Width()
    ensures IdPartMatches(ToMatch(WithFormat(p)), id.ToWire()) <==> IdPartHolds(terms, id)
  {
    var m := ToMatch(WithFormat(p));
    if !p.hasId {
      forall t | t in terms ensures !t.IdTerm? {
      }
    } else {
      var width := CanId({}, p.extended).Width();
      assert 31 !in width && m.ignoredBits == width - p.canMask;
      assert 31 !in m.ignoredBits && m.ignoredBits != ANY_ID_BITS;
      assert IdMask(m.id, m.ignoredBits) == width * p.canMask + EFF;
      assert IdValue(m.id, m.ignoredBits) == if p.extended then p.canId + EFF else p.canId;
      FormatCompare(id, p.canId, p.canMask, p.extended);
      if id.extended == p.extended {
        IdTermsMean(terms, id);
      }
    }
  }

  lemma IdTermsMean(terms: seq<Term>, id: CanId)
    requires AllOk(terms) && AllSayable(terms) && id.IsValid() && id.extended == IsExtended(terms)
    ensures AllIdMatch(terms, id.value) <==> IdTermsHold(terms, id.value)
  {
    forall t | t in terms && t.IdTerm? ensures IdMatches(t, id.value) <==> IdHolds(t, id.value) {
      IdTermMeans(t, id.value, id.extended);
    }
  }

  lemma PayloadTermsMean(terms: seq<Term>, word: W64)
    requires AllOk(terms) && AllSayable(terms)
    ensures AllPayloadMatch(terms, word) <==> PayloadTermsHold(terms, word)
  {
    forall t | t in terms ensures PayloadMatches(t, word) <==> PayloadHolds(t, word) {
      if t.ByteTerm? {
        ByteTermMeans(t, word);
      } else if t.BytesTerm? {
        RangeTermMeans(t, word);
      }
    }
  }

  /** A resolved condition with its meaning: the facts both main theorems use. */
  lemma ConditionMeans(terms: seq<Term>, f: DataFrame)
    requires Resolve(terms).Some? && f.id.IsValid()
    requires AllOk(terms) ==> AllSayable(terms)
    ensures AllOk(terms)
    ensures var p := Resolve(terms).value;
      && p.hasId == HasIdTerm(terms) && p.payloadValue <= p.payloadMask
      && (IdPartMatches(ToMatch(p), f.id.ToWire()) <==> IdPartHolds(terms, f.id))
      && (PayloadWord(f.payload) * p.payloadMask == p.payloadValue <==> PayloadTermsHold(terms, PayloadWord(f.payload)))
  {
    var p := AddTerms(NO_PATTERN, terms).value;
    ResolvedSays(terms);
    var width := CanId({}, IsExtended(terms)).Width();
    forall t | t in terms && t.IdTerm? ensures IdShare(t).1 <= width {
      assert Sayable(t, IsExtended(terms));
    }
    IdStaysWithin(NO_PATTERN, terms, width);
    IdPartMeans(terms, p, f.id);
    PayloadTermsMean(terms, PayloadWord(f.payload));
  }

  // ---------- down to the agent ----------

  /** The frame meets the advance pattern of the step's template, with the step's own expected value. */
  predicate AdvanceMet(t: Template, s: TxnStep, f: DataFrame) {
    && t.advance.Some? && MatchesId(t.advance.value, f.id.ToWire())
    && MatchesPayload(PayloadWord(f.payload), t.advance.value.payloadMask, ExpectedValue(s, t.advance.value))
  }

  /** Records that close a step carry its expected value. */
  predicate Closes(s: Step, record: TxnStep)
    requires StepOk(s)
  {
    && record.expectsValue == s.qualifier.Some?
    && (s.qualifier.Some? ==> record.expectValue == ToU64(ExpectValue(s.response.value, s.qualifier.value)))
  }

  lemma {:induction false} LastMessageRecordCloses(s: Step, id: u8, rest: seq<u8>)
    requires StepOk(s) && s.isotp.Some? && rest != []
    ensures var records := MessageRecords(s, id, rest); records != [] && Closes(s, records[|records| - 1])
    decreases |rest|
  {
    if |rest| > MESSAGE_RECORD_BYTES {
      LastMessageRecordCloses(s, id, rest[MESSAGE_RECORD_BYTES..]);
    }
  }

  lemma LastRecordCloses(s: Step, bitrateSwitch: bool, id: u8)
    requires StepOk(s)
    ensures var records := BuildRecords(s, bitrateSwitch, id); records != [] && Closes(s, records[|records| - 1])
  {
    if s.isotp.Some? && s.data.Some? {
      LastMessageRecordCloses(s, id, s.data.value);
    }
  }

  /**
    Without a qualifier: a data frame advances the step exactly when every term
    of the response's success holds.
   */
  lemma SuccessKeepsItsMeaning(terms: seq<Term>, s: Step, record: TxnStep, f: DataFrame)
    requires Resolve(terms).Some? && (AllOk(terms) ==> AllSayable(terms)) && f.id.IsValid()
    requires StepOk(s) && s.response.Some? && s.qualifier.None?
    requires s.response.value.success == ToMatch(Resolve(terms).value) && Closes(s, record)
    ensures AdvanceMet(BuildTemplate(s), record, f) <==> Holds(terms, f)
  {
    ConditionMeans(terms, f);
    var p := Resolve(terms).value;
    assert p.payloadValue * p.payloadMask == p.payloadValue;
    TemplateAdvance(s);
  }

  lemma TemplateAdvance(s: Step)
    requires StepOk(s) && s.response.Some?
    ensures BuildTemplate(s).advance == Some(BuildAdvance(s.response.value, s.qualifier))
  {
  }

  /** What a response and a qualifier compare of a payload together: the qualifier first. */
  lemma OverriddenCompare(sm: set<nat>, sv: set<nat>, qm: set<nat>, qv: set<nat>, w: set<nat>)
    requires sv <= sm && qv <= qm
    ensures w * (sm + qm) == ((sv - qm) + qv) * (sm + qm) <==> w * qm == qv && w * (sm - qm) == sv - qm
  {
    if w * (sm + qm) == ((sv - qm) + qv) * (sm + qm) {
      forall i ensures (i in w * qm <==> i in qv) && (i in w * (sm - qm) <==> i in sv - qm) {
        assert i in w * (sm + qm) <==> i in ((sv - qm) + qv) * (sm + qm);
      }
    }
    if w * qm == qv && w * (sm - qm) == sv - qm {
      forall i ensures i in w * (sm + qm) <==> i in ((sv - qm) + qv) * (sm + qm) {
        assert i in w * qm <==> i in qv;
        assert i in w * (sm - qm) <==> i in sv - qm;
      }
    }
  }

  /**
    With a qualifier: its id terms replace the response's, every bit it
    compares is its own, and the response keeps the bits it does not compare.
   */
  lemma QualifierKeepsItsMeaning(terms: seq<Term>, extra: seq<Term>, s: Step, record: TxnStep, f: DataFrame)
    requires Resolve(terms).Some? && (AllOk(terms) ==> AllSayable(terms)) && f.id.IsValid()
    requires Resolve(extra).Some? && (AllOk(extra) ==> AllSayable(extra))
    requires StepOk(s) && s.response.Some? && Closes(s, record)
    requires s.response.value.success == ToMatch(Resolve(terms).value)
    requires s.qualifier == Some(QualifierMatch(Resolve(extra).value, s.response.value.success))
    ensures var p, q, w := Resolve(terms).value, Resolve(extra).value, PayloadWord(f.payload);
      AdvanceMet(BuildTemplate(s), record, f) <==>
        && (if HasIdTerm(extra) then IdPartHolds(extra, f.id) else IdPartHolds(terms, f.id))
        && PayloadTermsHold(extra, w)
        && w * (p.payloadMask - q.payloadMask) == p.payloadValue - q.payloadMask
  {
    ConditionMeans(terms, f);
    ConditionMeans(extra, f);
    TemplateAdvance(s);
    U64RoundTrip(ExpectValue(s.response.value, s.qualifier.value));
    QualifiedCompare(Resolve(terms).value, Resolve(extra).value, s.response.value, record, f);
  }

  lemma QualifiedCompare(p: ScriptPattern, q: ScriptPattern, r: Response, record: TxnStep, f: DataFrame)
    requires p.payloadValue <= p.payloadMask && q.payloadValue <= q.payloadMask && r.success == ToMatch(p)
    requires record.expectsValue && OfU64(record.expectValue) == ExpectValue(r, QualifierMatch(q, r.success))
    ensures var w, m, advance := PayloadWord(f.payload), QualifierMatch(q, r.success), BuildAdvance(r, Some(QualifierMatch(q, r.success)));
      && (MatchesId(advance, f.id.ToWire()) <==> IdPartMatches(if q.hasId then ToMatch(q) else r.success, f.id.ToWire()))
      && (MatchesPayload(w, advance.payloadMask, ExpectedValue(record, advance)) <==>
            w * q.payloadMask == q.payloadValue && w * (p.payloadMask - q.payloadMask) == p.payloadValue - q.payloadMask)
  {
    assert p.payloadValue * p.payloadMask == p.payloadValue && q.payloadValue * q.payloadMask == q.payloadValue;
    OverriddenCompare(p.payloadMask, p.payloadValue, q.payloadMask, q.payloadValue, PayloadWord(f.payload));
  }

  // ---------- the agent's verdict ----------

  /** A response's match is what the terms, if there are any, resolve to; each of them can be said. */
  predicate Says(m: Option<Match>, terms: Option<seq<Term>>) {
    if terms.None? then m.None?
    else
      && Resolve(terms.value).Some? && (AllOk(terms.value) ==> AllSayable(terms.value))
      && m == Some(ToMatch(Resolve(terms.value).value))
  }

  predicate HoldsIfAny(terms: Option<seq<Term>>, f: DataFrame) {
    terms.Some? && Holds(terms.value, f)
  }

  lemma PatternMeans(m: Option<Match>, terms: Option<seq<Term>>, f: DataFrame)
    requires Says(m, terms) && f.id.IsValid()
    ensures var pattern := if m.Some? then Some(ToPattern(m.value)) else None;
      MatchesPattern(pattern, f.id.ToWire(), PayloadWord(f.payload)) <==> HoldsIfAny(terms, f)
  {
    if terms.Some? {
      ConditionMeans(terms.value, f);
      var p := Resolve(terms.value).value;
      assert p.payloadValue * p.payloadMask == p.payloadValue;
    }
  }

  lemma TemplateOthers(s: Step)
    requires StepOk(s) && s.response.Some?
    ensures var t, r := BuildTemplate(s), s.response.value;
      && t.extend == (if r.pending.Some? then Some(ToPattern(r.pending.value)) else None)
      && t.abort == (if r.failure.Some? then Some(ToPattern(r.failure.value)) else None)
      && t.mismatchAbort == r.onMismatchAbort
  {
  }

  /** The verdict the conditions of a step call for. */
  function VerdictFor(
    pending: Option<seq<Term>>, failure: Option<seq<Term>>, met: bool, idMet: bool, onMismatchAbort: bool, f: DataFrame): Verdict
  {
    if HoldsIfAny(pending, f) then Extends
    else if HoldsIfAny(failure, f) then Aborts
    else if met then Advances
    else if idMet && onMismatchAbort then Mismatch
    else Ignored
  }

  function VerdictOn(s: Step, record: TxnStep, f: DataFrame): Verdict
    requires StepOk(s)
  {
    Judge(BuildTemplate(s), record, f.id.ToWire(), PayloadWord(f.payload))
  }

  /** From what the advance pattern and its id part come to, the whole verdict. */
  lemma VerdictFollows(
    s: Step, record: TxnStep, f: DataFrame, pending: Option<seq<Term>>, failure: Option<seq<Term>>, met: bool, idMet: bool)
    requires StepOk(s) && s.response.Some? && f.id.IsValid()
    requires Says(s.response.value.pending, pending) && Says(s.response.value.failure, failure)
    requires AdvanceMet(BuildTemplate(s), record, f) <==> met
    requires MatchesId(BuildAdvance(s.response.value, s.qualifier), f.id.ToWire()) <==> idMet
    ensures VerdictOn(s, record, f) == VerdictFor(pending, failure, met, idMet, s.response.value.onMismatchAbort, f)
  {
    PatternMeans(s.response.value.pending, pending, f);
    PatternMeans(s.response.value.failure, failure, f);
    TemplateOthers(s);
    TemplateAdvance(s);
  }

  /**
    The agent's verdict on any data frame is the one the script's conditions call for:
    it extends the wait exactly if every pending term holds, else aborts exactly if
    every failure term holds, else advances exactly if every success term holds, else
    aborts on a frame with the right id exactly if the response says so.
   */
  lemma VerdictKeepsItsMeaning(
    terms: seq<Term>, pending: Option<seq<Term>>, failure: Option<seq<Term>>, s: Step, record: TxnStep, f: DataFrame)
    requires StepOk(s) && s.response.Some? && s.qualifier.None? && Closes(s, record) && f.id.IsValid()
    requires Says(Some(s.response.value.success), Some(terms))
    requires Says(s.response.value.pending, pending) && Says(s.response.value.failure, failure)
    ensures VerdictOn(s, record, f)
         == VerdictFor(pending, failure, Holds(terms, f), IdPartHolds(terms, f.id), s.response.value.onMismatchAbort, f)
  {
    SuccessKeepsItsMeaning(terms, s, record, f);
    ConditionMeans(terms, f);
    VerdictFollows(s, record, f, pending, failure, Holds(terms, f), IdPartHolds(terms, f.id));
  }

  /** With a qualifier its id terms come in place of the response's, if it has any. */
  predicate QualifiedIdHolds(terms: seq<Term>, extra: seq<Term>, f: DataFrame) {
    if HasIdTerm(extra) then IdPartHolds(extra, f.id) else IdPartHolds(terms, f.id)
  }

  /** And every bit it compares is its own, the response keeping the others. */
  predicate QualifiedHolds(terms: seq<Term>, extra: seq<Term>, f: DataFrame)
    requires Resolve(terms).Some? && Resolve(extra).Some?
  {
    var p, q, w := Resolve(terms).value, Resolve(extra).value, PayloadWord(f.payload);
    && QualifiedIdHolds(terms, extra, f) && PayloadTermsHold(extra, w)
    && w * (p.payloadMask - q.payloadMask) == p.payloadValue - q.payloadMask
  }

  /** The same with a qualifier: only success is qualified. */
  lemma QualifiedVerdictKeepsItsMeaning(
    terms: seq<Term>, extra: seq<Term>, pending: Option<seq<Term>>, failure: Option<seq<Term>>,
    s: Step, record: TxnStep, f: DataFrame)
    requires StepOk(s) && s.response.Some? && Closes(s, record) && f.id.IsValid()
    requires Says(Some(s.response.value.success), Some(terms))
    requires Resolve(extra).Some? && (AllOk(extra) ==> AllSayable(extra))
    requires s.qualifier == Some(QualifierMatch(Resolve(extra).value, s.response.value.success))
    requires Says(s.response.value.pending, pending) && Says(s.response.value.failure, failure)
    ensures VerdictOn(s, record, f)
         == VerdictFor(pending, failure, QualifiedHolds(terms, extra, f), QualifiedIdHolds(terms, extra, f),
                       s.response.value.onMismatchAbort, f)
  {
    QualifierKeepsItsMeaning(terms, extra, s, record, f);
    QualifiedIdMeans(terms, extra, s, record, f);
    VerdictFollows(s, record, f, pending, failure, QualifiedHolds(terms, extra, f), QualifiedIdHolds(terms, extra, f));
  }

  lemma QualifiedIdMeans(terms: seq<Term>, extra: seq<Term>, s: Step, record: TxnStep, f: DataFrame)
    requires Resolve(terms).Some? && (AllOk(terms) ==> AllSayable(terms)) && f.id.IsValid()
    requires Resolve(extra).Some? && (AllOk(extra) ==> AllSayable(extra))
    requires StepOk(s) && s.response.Some? && Closes(s, record)
    requires s.response.value.success == ToMatch(Resolve(terms).value)
    requires s.qualifier == Some(QualifierMatch(Resolve(extra).value, s.response.value.success))
    ensures MatchesId(BuildAdvance(s.response.value, s.qualifier), f.id.ToWire()) <==> QualifiedIdHolds(terms, extra, f)
  {
    ConditionMeans(terms, f);
    ConditionMeans(extra, f);
    U64RoundTrip(ExpectValue(s.response.value, s.qualifier.value));
    QualifiedCompare(Resolve(terms).value, Resolve(extra).value, s.response.value, record, f);
  }

  /** The id as qualified, and the bytes of both conditions. */
  predicate BothHold(terms: seq<Term>, extra: seq<Term>, f: DataFrame) {
    && QualifiedIdHolds(terms, extra, f)
    && PayloadTermsHold(terms, PayloadWord(f.payload)) && PayloadTermsHold(extra, PayloadWord(f.payload))
  }

  /** Where the qualifier agrees with the response, qualified success is the bytes of both conditions. */
  lemma AgreeingQualifierAdds(terms: seq<Term>, extra: seq<Term>, f: DataFrame)
    requires Resolve(terms).Some? && (AllOk(terms) ==> AllSayable(terms)) && f.id.IsValid()
    requires Resolve(extra).Some? && (AllOk(extra) ==> AllSayable(extra))
    requires AgreeOnCommonBits(Resolve(terms).value, Resolve(extra).value)
    ensures QualifiedHolds(terms, extra, f) <==> BothHold(terms, extra, f)
  {
    ConditionMeans(terms, f);
    ConditionMeans(extra, f);
    var p, q, w := Resolve(terms).value, Resolve(extra).value, PayloadWord(f.payload);
    if w * q.payloadMask == q.payloadValue {
      forall i ensures (i in w * p.payloadMask <==> i in p.payloadValue)
                   <==> (i in w * (p.payloadMask - q.payloadMask) <==> i in p.payloadValue - q.payloadMask) {
        assert i in w * q.payloadMask <==> i in q.payloadValue;
        assert i in p.payloadValue * q.payloadMask <==> i in q.payloadValue * p.payloadMask;
      }
    }
  }

  // ---------- when a qualifier adds to the response ----------

  /** Eight bytes that read as the word. */
  function Spelled(w: W64): (payload: seq<u8>)
    ensures |payload| == 8
  {
    seq(8, k requires 0 <= k < 8 => ByteNumber(w, k))
  }

  function ByteNumber(w: W64, k: nat): u8 {
    NumberBounded(w, 8 * k, 8);
    Pow2Words();
    NumberOf(w, 8 * k, 8)
  }

  lemma SpelledReadsBack(w: W64)
    ensures PayloadWord(Spelled(w)) == w
  {
    forall i: nat | i < 64 ensures PayloadBit(Spelled(w), i) <==> i in w {
      NumberHasBits(w, 8 * (i / 8), 8, i % 8);
    }
  }

  lemma OwnIdMatches(p: ScriptPattern)
    ensures ToMatch(p).id.IsValid() && IdPartMatches(ToMatch(p), ToMatch(p).id.ToWire())
  {
  }

  predicate AgreeOnCommonBits(p: ScriptPattern, q: ScriptPattern) {
    p.payloadValue * q.payloadMask == q.payloadValue * p.payloadMask
  }

  /** Where the two compare a common bit with different values, a frame meets the qualified success but not the response's bytes. */
  lemma DisagreeingQualifierOverrides(terms: seq<Term>, extra: seq<Term>) returns (f: DataFrame)
    requires Resolve(terms).Some? && (AllOk(terms) ==> AllSayable(terms))
    requires Resolve(extra).Some? && (AllOk(extra) ==> AllSayable(extra))
    requires !AgreeOnCommonBits(Resolve(terms).value, Resolve(extra).value)
    ensures f.id.IsValid() && QualifiedHolds(terms, extra, f) && !BothHold(terms, extra, f)
  {
    var p, q := Resolve(terms).value, Resolve(extra).value;
    var w: W64 := q.payloadValue + (p.payloadValue - q.payloadMask);
    f := DataFrame(if HasIdTerm(extra) then ToMatch(q).id else ToMatch(p).id, Spelled(w));
    SpelledReadsBack(w);
    OwnIdMatches(p);
    OwnIdMatches(q);
    ConditionMeans(terms, f);
    ConditionMeans(extra, f);
    OverriddenWord(p.payloadMask, p.payloadValue, q.payloadMask, q.payloadValue, w);
  }

  lemma OverriddenWord(pm: set<nat>, pv: set<nat>, qm: set<nat>, qv: set<nat>, w: set<nat>)
    requires pv <= pm && qv <= qm && pv * qm != qv * pm && w == qv + (pv - qm)
    ensures w * qm == qv && w * (pm - qm) == pv - qm && w * pm != pv
  {
    var i :| (i in pv * qm) != (i in qv * pm);
    assert (i in w * pm) != (i in pv);
  }

  /**
    The bytes of a qualifier add to the response's, as the interface says they do, exactly if
    the two compare no bit with different values; otherwise they override them.
   */
  lemma QualifierAddsExactly(terms: seq<Term>, extra: seq<Term>)
    requires Resolve(terms).Some? && (AllOk(terms) ==> AllSayable(terms))
    requires Resolve(extra).Some? && (AllOk(extra) ==> AllSayable(extra))
    ensures AgreeOnCommonBits(Resolve(terms).value, Resolve(extra).value) <==>
      forall f: DataFrame | f.id.IsValid() :: QualifiedHolds(terms, extra, f) <==> BothHold(terms, extra, f)
  {
    if AgreeOnCommonBits(Resolve(terms).value, Resolve(extra).value) {
      forall f: DataFrame | f.id.IsValid() ensures QualifiedHolds(terms, extra, f) <==> BothHold(terms, extra, f) {
        AgreeingQualifierAdds(terms, extra, f);
      }
    } else {
      var f := DisagreeingQualifierOverrides(terms, extra);
    }
  }
}
