/**
  The Rocksoft CRC of src/client/txn_script/checksum.c, against polynomial
  division over GF(2). A polynomial is the set of its exponents: addition is
  symmetric difference, multiplication by x^k moves the exponents.
 */
module Checksum {
  import opened Frames
  import opened MachineWords

  const WIDTH_MIN := 8
  const WIDTH_MAX := 32

  datatype CrcModel = CrcModel(
    width: nat, polynomial: W32, initial: W32, reflectInput: bool, reflectOutput: bool, finalXor: W32)

  predicate IsValid(m: CrcModel) {
    WIDTH_MIN <= m.width <= WIDTH_MAX
  }

  // ---------- the code ----------

  /** Bits turned end to end within `width`. */
  function Reflect(v: set<nat>, width: nat): (r: set<nat>)
    ensures forall i {:trigger i in r} :: i in r <==> 0 <= i < width && width - 1 - i in v
  {
    set i: nat | i in v && i < width :: width - 1 - i
  }

  function Input(m: CrcModel, byte: u8): (bits: set<nat>)
    ensures forall i | i in bits :: i < 8
  {
    if m.reflectInput then Reflect(BitsOf(byte, 8), 8) else BitsOf(byte, 8)
  }

  /** One turn of the inner loop; bits above the width are left alone. */
  function ShiftStep(m: CrcModel, v: W32): W32
    requires IsValid(m)
  {
    if m.width - 1 in v then Xor(Shl(v, 1, 32), m.polynomial) else Shl(v, 1, 32)
  }

  function ShiftSteps(m: CrcModel, v: W32, n: nat): W32
    requires IsValid(m)
  {
    if n == 0 then v else ShiftStep(m, ShiftSteps(m, v, n - 1))
  }

  function CrcByte(m: CrcModel, v: W32, byte: u8): W32
    requires IsValid(m)
  {
    ShiftSteps(m, Xor(v, Shl(Input(m, byte), m.width - 8, 32)), 8) * Ones(m.width)
  }

  function AfterBytes(m: CrcModel, v: W32, data: seq<u8>): W32
    requires IsValid(m)
    decreases |data|
  {
    if data == [] then v else CrcByte(m, AfterBytes(m, v, data[..|data| - 1]), data[|data| - 1])
  }

  function InitialValue(m: CrcModel): W32 {
    m.initial * Ones(m.width)
  }

  // ---------- polynomials ----------

  function MulX(p: set<nat>, k: nat): (r: set<nat>)
    ensures forall i {:trigger i in r} :: i in r <==> i >= k && i - k in p
  {
    set i | i in p :: i + k
  }

  /** q(x) * g(x), the coefficients of q given highest first. */
  function Times(q: seq<bool>, g: set<nat>): set<nat> {
    if q == [] then {}
    else Xor(MulX(Times(q[..|q| - 1], g), 1), if q[|q| - 1] then g else {})
  }

  /** The polynomial whose coefficients are the bits, first bit highest. */
  function PolyOf(bits: seq<bool>): set<nat> {
    Times(bits, {0})
  }

  function Generator(m: CrcModel): set<nat>
    requires IsValid(m)
  {
    {m.width} + m.polynomial * Ones(m.width)
  }

  /** The bits of the message in the order the CRC takes them: each byte highest bit first, or reflected. */
  function ByteBits(m: CrcModel, byte: u8): (bits: seq<bool>)
    ensures |bits| == 8
  {
    seq(8, i requires 0 <= i < 8 => 7 - i in Input(m, byte))
  }

  function MessageBits(m: CrcModel, data: seq<u8>): (bits: seq<bool>)
    ensures |bits| == 8 * |data|
  {
    if data == [] then [] else MessageBits(m, data[..|data| - 1]) + ByteBits(m, data[|data| - 1])
  }

  /** What is divided: the message, preceded by the initial value and followed by `width` zeros. */
  function Dividend(m: CrcModel, initial: set<nat>, bits: seq<bool>): set<nat>
    requires IsValid(m)
  {
    Xor(MulX(PolyOf(bits), m.width), MulX(initial, |bits|))
  }

  ghost predicate IsRemainder(m: CrcModel, dividend: set<nat>, r: set<nat>)
    requires IsValid(m)
  {
    (forall i | i in r :: i < m.width) && exists q :: dividend == Xor(Times(q, Generator(m)), r)
  }

  // ---------- the textbook division, bit by bit ----------

  function DivideBit(m: CrcModel, r: set<nat>, bit: bool): set<nat>
    requires IsValid(m)
  {
    var t := Xor(MulX(r, 1), if bit then {m.width} else {});
    if m.width in t then Xor(t, Generator(m)) else t
  }

  function Divide(m: CrcModel, r: set<nat>, bits: seq<bool>): set<nat>
    requires IsValid(m)
  {
    if bits == [] then r else DivideBit(m, Divide(m, r, bits[..|bits| - 1]), bits[|bits| - 1])
  }

  lemma PolyGrows(less: seq<bool>, bit: bool, g: set<nat>)
    ensures Times(less + [bit], g) == Xor(MulX(Times(less, g), 1), if bit then g else {})
  {
    assert (less + [bit])[..|less|] == less;
  }

  lemma ShiftedSum(p: set<nat>, a: set<nat>, w: nat, n: nat, bit: bool)
    ensures Xor(MulX(Xor(MulX(p, 1), if bit then {0} else {}), w), MulX(a, n + 1))
         == Xor(MulX(Xor(MulX(p, w), MulX(a, n)), 1), if bit then {w} else {})
  {
    var left := Xor(MulX(Xor(MulX(p, 1), if bit then {0} else {}), w), MulX(a, n + 1));
    var right := Xor(MulX(Xor(MulX(p, w), MulX(a, n)), 1), if bit then {w} else {});
    forall i: nat ensures i in left <==> i in right {
      assert i in MulX(Xor(MulX(p, 1), if bit then {0} else {}), w) <==> i >= w && ((i - w >= 1 && i - w - 1 in p) != (bit && i == w));
      assert i in MulX(Xor(MulX(p, w), MulX(a, n)), 1) <==> i >= 1 && ((i - 1 >= w && i - 1 - w in p) != (i - 1 >= n && i - 1 - n in a));
    }
  }

  lemma DividendGrows(m: CrcModel, initial: set<nat>, less: seq<bool>, bit: bool)
    requires IsValid(m)
    ensures Dividend(m, initial, less + [bit])
         == Xor(MulX(Dividend(m, initial, less), 1), if bit then {m.width} else {})
  {
    PolyGrows(less, bit, {0});
    ShiftedSum(PolyOf(less), initial, m.width, |less|, bit);
  }

  /** Taking the generator off both sides, or not, leaves the sum. */
  lemma Reduced(a: set<nat>, t: set<nat>, g: set<nat>, take: bool)
    ensures Xor(Xor(a, if take then g else {}), if take then Xor(t, g) else t) == Xor(a, t)
  {
  }

  lemma SumShifted(a: set<nat>, r: set<nat>, top: set<nat>)
    ensures Xor(MulX(Xor(a, r), 1), top) == Xor(MulX(a, 1), Xor(MulX(r, 1), top))
  {
  }

  /** One bit of long division: what leaves the width is a multiple of the generator. */
  lemma DivideBitStep(m: CrcModel, q: seq<bool>, r: set<nat>, bit: bool, d: set<nat>)
    requires IsValid(m) && (forall i | i in r :: i < m.width) && d == Xor(Times(q, Generator(m)), r)
    ensures IsRemainder(m, Xor(MulX(d, 1), if bit then {m.width} else {}), DivideBit(m, r, bit))
  {
    var g, top := Generator(m), (if bit then {m.width} else {});
    var t := Xor(MulX(r, 1), top);
    var take := m.width in t;
    SumShifted(Times(q, g), r, top);
    PolyGrows(q, take, g);
    Reduced(MulX(Times(q, g), 1), t, g, take);
    assert Xor(MulX(d, 1), top) == Xor(Times(q + [take], g), DivideBit(m, r, bit));
    DivideBitWithin(m, r, bit);
  }

  lemma DivideBitWithin(m: CrcModel, r: set<nat>, bit: bool)
    requires IsValid(m) && forall i | i in r :: i < m.width
    ensures forall i | i in DivideBit(m, r, bit) :: i < m.width
  {
  }

  /** Long division leaves the remainder. */
  lemma {:induction false} DividesBits(m: CrcModel, initial: set<nat>, bits: seq<bool>)
    requires IsValid(m) && forall i | i in initial :: i < m.width
    ensures IsRemainder(m, Dividend(m, initial, bits), Divide(m, initial, bits))
    decreases |bits|
  {
    if bits == [] {
      assert Dividend(m, initial, bits) == Xor(Times([], Generator(m)), initial);
    } else {
      var less, bit := bits[..|bits| - 1], bits[|bits| - 1];
      DividesBits(m, initial, less);
      var d, r := Dividend(m, initial, less), Divide(m, initial, less);
      var q :| d == Xor(Times(q, Generator(m)), r);
      DivideBitStep(m, q, r, bit, d);
      assert less + [bit] == bits;
      DividendGrows(m, initial, less, bit);
    }
  }

  // ---------- the register against the division ----------

  /** After `i` turns the low bits of the register are the remainder plus the input bits still to come. */
  predicate Tracks(m: CrcModel, x: W32, r: set<nat>, input: set<nat>, i: nat)
    requires IsValid(m)
  {
    && (forall k | k in r :: k < m.width)
    && forall k: nat | k < m.width :: k in x <==> (k in r) != (k >= m.width - 8 + i && k - (m.width - 8 + i) in input)
  }

  lemma RegisterBit(m: CrcModel, x: W32, k: nat)
    requires IsValid(m) && k < m.width
    ensures k in ShiftStep(m, x) <==> (k >= 1 && k - 1 in x) != (m.width - 1 in x && k in m.polynomial)
  {
  }

  lemma RemainderBit(m: CrcModel, r: set<nat>, bit: bool, k: nat)
    requires IsValid(m) && k < m.width
    ensures k in DivideBit(m, r, bit) <==> (k >= 1 && k - 1 in r) != ((m.width - 1 in r) != bit && k in m.polynomial)
  {
  }

  lemma TrackStep(m: CrcModel, x: W32, r: set<nat>, input: set<nat>, i: nat)
    requires IsValid(m) && i < 8 && Tracks(m, x, r, input, i) && forall k | k in input :: k < 8
    ensures Tracks(m, ShiftStep(m, x), DivideBit(m, r, 7 - i in input), input, i + 1)
  {
    var w, bit := m.width, 7 - i in input;
    DivideBitWithin(m, r, bit);
    assert w - 1 in x <==> (w - 1 in r) != bit;
    forall k: nat | k < w
      ensures k in ShiftStep(m, x) <==> (k in DivideBit(m, r, bit)) != (k >= w - 7 + i && k - (w - 7 + i) in input)
    {
      RegisterBit(m, x, k);
      RemainderBit(m, r, bit, k);
      if k >= 1 {
        assert k - 1 in x <==> (k - 1 in r) != (k - 1 >= w - 8 + i && k - 1 - (w - 8 + i) in input);
      }
    }
  }

  lemma TracksAtStart(m: CrcModel, v: W32, byte: u8)
    requires IsValid(m) && v <= Ones(m.width)
    ensures Tracks(m, Xor(v, Shl(Input(m, byte), m.width - 8, 32)), v, Input(m, byte), 0)
  {
  }

  lemma DivideNext(m: CrcModel, v: set<nat>, bits: seq<bool>, i: nat)
    requires IsValid(m) && i < |bits|
    ensures Divide(m, v, bits[..i + 1]) == DivideBit(m, Divide(m, v, bits[..i]), bits[i])
  {
    assert bits[..i + 1][..i] == bits[..i];
  }

  lemma {:induction false} TrackSteps(m: CrcModel, v: W32, byte: u8, i: nat)
    requires IsValid(m) && i <= 8 && v <= Ones(m.width)
    ensures Tracks(m, ShiftSteps(m, Xor(v, Shl(Input(m, byte), m.width - 8, 32)), i),
                   Divide(m, v, ByteBits(m, byte)[..i]), Input(m, byte), i)
    decreases i
  {
    var bits := ByteBits(m, byte);
    if i == 0 {
      TracksAtStart(m, v, byte);
    } else {
      TrackSteps(m, v, byte, i - 1);
      var x := ShiftSteps(m, Xor(v, Shl(Input(m, byte), m.width - 8, 32)), i - 1);
      TrackStep(m, x, Divide(m, v, bits[..i - 1]), Input(m, byte), i - 1);
      DivideNext(m, v, bits, i - 1);
    }
  }

  /** One byte through the register is eight bits of the division, although bits above the width are never cleared. */
  lemma ByteDivides(m: CrcModel, v: W32, byte: u8)
    requires IsValid(m) && v <= Ones(m.width)
    ensures CrcByte(m, v, byte) == Divide(m, v, ByteBits(m, byte))
    ensures CrcByte(m, v, byte) <= Ones(m.width)
  {
    TrackSteps(m, v, byte, 8);
    assert ByteBits(m, byte)[..8] == ByteBits(m, byte);
    Settled(m, ShiftSteps(m, Xor(v, Shl(Input(m, byte), m.width - 8, 32)), 8), Divide(m, v, ByteBits(m, byte)), Input(m, byte));
  }

  lemma Settled(m: CrcModel, x: W32, r: set<nat>, input: set<nat>)
    requires IsValid(m) && Tracks(m, x, r, input, 8)
    ensures x * Ones(m.width) == r
  {
  }

  lemma {:induction false} DivideAppend(m: CrcModel, r: set<nat>, a: seq<bool>, b: seq<bool>)
    requires IsValid(m)
    ensures Divide(m, r, a + b) == Divide(m, Divide(m, r, a), b)
    decreases |b|
  {
    if b == [] {
      assert a + b == a;
    } else {
      assert (a + b)[..|a + b| - 1] == a + b[..|b| - 1];
      DivideAppend(m, r, a, b[..|b| - 1]);
    }
  }

  lemma {:induction false} UpdateDivides(m: CrcModel, v: W32, data: seq<u8>)
    requires IsValid(m) && v <= Ones(m.width)
    ensures AfterBytes(m, v, data) == Divide(m, v, MessageBits(m, data)) && AfterBytes(m, v, data) <= Ones(m.width)
    decreases |data|
  {
    if data != [] {
      var less, byte := data[..|data| - 1], data[|data| - 1];
      UpdateDivides(m, v, less);
      ByteDivides(m, AfterBytes(m, v, less), byte);
      DivideAppend(m, v, MessageBits(m, less), ByteBits(m, byte));
    }
  }

  /**
    The value after any message is the remainder of the message, with the
    initial value in front, by x^width + polynomial.
   */
  lemma CrcIsRemainder(m: CrcModel, data: seq<u8>)
    requires IsValid(m)
    ensures IsRemainder(m, Dividend(m, InitialValue(m), MessageBits(m, data)), AfterBytes(m, InitialValue(m), data))
  {
    UpdateDivides(m, InitialValue(m), data);
    DividesBits(m, InitialValue(m), MessageBits(m, data));
  }

  /** Data may come in pieces of any size. */
  lemma {:induction false} PiecesDoNotMatter(m: CrcModel, v: W32, a: seq<u8>, b: seq<u8>)
    requires IsValid(m)
    ensures AfterBytes(m, v, a + b) == AfterBytes(m, AfterBytes(m, v, a), b)
    decreases |b|
  {
    if b == [] {
      assert a + b == a;
    } else {
      assert (a + b)[..|a + b| - 1] == a + b[..|b| - 1];
      PiecesDoNotMatter(m, v, a, b[..|b| - 1]);
    }
  }

  // ---------- there is only one remainder ----------

  lemma TopMovesUp(t: set<nat>, g: set<nat>, top: nat, w: nat, take: bool)
    requires top in t && w <= top && (forall i | i in t :: i <= top) && forall i | i in g :: i <= w
    ensures var s := Xor(MulX(t, 1), if take then g else {}); top + 1 in s && forall i | i in s :: i <= top + 1
  {
  }

  /** A multiple of the generator that is not zero reaches the width. */
  lemma {:induction false} MultipleReachesWidth(g: set<nat>, w: nat, q: seq<bool>, k: nat)
    requires w in g && forall i | i in g :: i <= w
    requires k < |q| && q[k] && forall j | 0 <= j < k :: !q[j]
    ensures w + (|q| - 1 - k) in Times(q, g)
    ensures forall i | i in Times(q, g) :: i <= w + (|q| - 1 - k)
    decreases |q|
  {
    var less := q[..|q| - 1];
    if k < |q| - 1 {
      MultipleReachesWidth(g, w, less, k);
      TopMovesUp(Times(less, g), g, w + (|less| - 1 - k), w, q[|q| - 1]);
    } else {
      AllFalseIsZero(less, g);
      assert Times(q, g) == g;
    }
  }

  function FirstTrue(q: seq<bool>): (k: nat)
    ensures k <= |q| && (k < |q| ==> q[k]) && forall j | 0 <= j < k :: !q[j]
  {
    if q == [] then 0 else if q[0] then 0
    else
      var k := FirstTrue(q[1..]);
      assert forall j | 1 <= j < k + 1 :: q[j] == q[1..][j - 1];
      k + 1
  }

  lemma SmallMultipleIsZero(g: set<nat>, w: nat, q: seq<bool>)
    requires w in g && (forall i | i in g :: i <= w) && forall i | i in Times(q, g) :: i < w
    ensures Times(q, g) == {}
  {
    var k := FirstTrue(q);
    if k < |q| {
      MultipleReachesWidth(g, w, q, k);
    } else {
      AllFalseIsZero(q, g);
    }
  }

  lemma {:induction false} AllFalseIsZero(q: seq<bool>, g: set<nat>)
    requires forall j | 0 <= j < |q| :: !q[j]
    ensures Times(q, g) == {}
    decreases |q|
  {
    if q != [] {
      AllFalseIsZero(q[..|q| - 1], g);
    }
  }

  function XorBits(a: seq<bool>, b: seq<bool>): seq<bool>
    requires |a| == |b|
  {
    seq(|a|, i requires 0 <= i < |a| => a[i] != b[i])
  }

  lemma {:induction false} TimesXor(a: seq<bool>, b: seq<bool>, g: set<nat>)
    requires |a| == |b|
    ensures Times(XorBits(a, b), g) == Xor(Times(a, g), Times(b, g))
    decreases |a|
  {
    if a != [] {
      var n := |a| - 1;
      TimesXor(a[..n], b[..n], g);
      assert XorBits(a, b)[..n] == XorBits(a[..n], b[..n]);
      XorOfSums(Times(a[..n], g), Times(b[..n], g), g, a[n], b[n]);
    }
  }

  lemma XorOfSums(p: set<nat>, q: set<nat>, g: set<nat>, a: bool, b: bool)
    ensures Xor(MulX(Xor(p, q), 1), if a != b then g else {})
         == Xor(Xor(MulX(p, 1), if a then g else {}), Xor(MulX(q, 1), if b then g else {}))
  {
  }

  /** Coefficients brought to length `n` with leading zeros. */
  function Padded(q: seq<bool>, n: nat): (p: seq<bool>)
    requires |q| <= n
    ensures |p| == n
    decreases n
  {
    if |q| == n then q else [false] + Padded(q, n - 1)
  }

  lemma {:induction false} LeadingZero(q: seq<bool>, g: set<nat>)
    ensures Times([false] + q, g) == Times(q, g)
    decreases |q|
  {
    if q != [] {
      assert ([false] + q)[..|q|] == [false] + q[..|q| - 1];
      LeadingZero(q[..|q| - 1], g);
    }
  }

  lemma {:induction false} PaddedTimes(q: seq<bool>, n: nat, g: set<nat>)
    requires |q| <= n
    ensures Times(Padded(q, n), g) == Times(q, g)
    decreases n
  {
    if |q| < n {
      PaddedTimes(q, n - 1, g);
      LeadingZero(Padded(q, n - 1), g);
    }
  }

  /** The sum of two multiples is a multiple. */
  lemma SumOfMultiples(q: seq<bool>, q': seq<bool>, g: set<nat>) returns (x: seq<bool>)
    ensures Times(x, g) == Xor(Times(q, g), Times(q', g))
  {
    var n := if |q| > |q'| then |q| else |q'|;
    PaddedTimes(q, n, g);
    PaddedTimes(q', n, g);
    TimesXor(Padded(q, n), Padded(q', n), g);
    x := XorBits(Padded(q, n), Padded(q', n));
  }

  /** The remainder of the division is unique, so the CRC is the remainder. */
  lemma RemainderIsUnique(m: CrcModel, d: set<nat>, r: set<nat>, r': set<nat>)
    requires IsValid(m) && IsRemainder(m, d, r) && IsRemainder(m, d, r')
    ensures r == r'
  {
    var g := Generator(m);
    var q :| d == Xor(Times(q, g), r);
    var q' :| d == Xor(Times(q', g), r');
    SameSum(Times(q, g), r, Times(q', g), r');
    var x := SumOfMultiples(q, q', g);
    SmallMultipleIsZero(g, m.width, x);
    assert forall i :: i in r <==> i in r' by {
      assert Xor(r, r') == {};
    }
  }

  lemma SameSum(p: set<nat>, r: set<nat>, p': set<nat>, r': set<nat>)
    requires Xor(p, r) == Xor(p', r')
    ensures Xor(p, p') == Xor(r, r')
  {
    forall i ensures i in Xor(p, p') <==> i in Xor(r, r') {
      assert i in Xor(p, r) <==> i in Xor(p', r');
    }
  }

  // ---------- the code's loops ----------

  method ReflectLoop(v: W32, width: nat) returns (r: W32)
    requires width <= 32
    ensures r == Reflect(v, width)
  {
    r := {};
    for i := 0 to width
      invariant forall k :: k in r <==> width - i <= k < width && width - 1 - k in v
    {
      if i in v {
        r := r + {width - 1 - i};
      }
    }
  }

  method CrcByteLoop(m: CrcModel, v: W32, byte: u8) returns (r: W32)
    requires IsValid(m)
    ensures r == CrcByte(m, v, byte)
  {
    var input: W32 := BitsOf(byte, 8);
    if m.reflectInput {
      input := ReflectLoop(input, 8);
    }
    var start: W32 := Xor(v, Shl(input, m.width - 8, 32));
    r := start;
    for i := 0 to 8
      invariant r == ShiftSteps(m, start, i)
    {
      if m.width - 1 in r {
        r := Xor(Shl(r, 1, 32), m.polynomial);
      } else {
        r := Shl(r, 1, 32);
      }
    }
    r := r * Ones(m.width);
  }

  /** Each bit of the result is the remainder's, from the same end or the other, flipped where the final word has a one. */
  ghost predicate IsFinalOf(m: CrcModel, rem: set<nat>, r: set<nat>) {
    forall i: nat {:trigger i in r} ::
      i in r <==> i < m.width && ((if m.reflectOutput then m.width - 1 - i else i) in rem) != (i in m.finalXor)
  }

  lemma TurnedIsFinal(m: CrcModel, v: W32, turned: W32)
    requires IsValid(m) && turned == if m.reflectOutput then Reflect(v, m.width) else v
    ensures IsFinalOf(m, v, Xor(turned, m.finalXor) * Ones(m.width))
  {
  }

  /** A checksum fed piece by piece; `fed` is everything it was fed. */
  class Crc {
    const model: CrcModel
    var value: W32
    ghost var fed: seq<u8>

    ghost predicate Valid()
      reads this
    {
      IsValid(model) && value == AfterBytes(model, InitialValue(model), fed)
    }

    constructor (m: CrcModel)
      requires IsValid(m)
      ensures Valid() && model == m && fed == []
    {
      model := m;
      value := m.initial * Ones(m.width);
      fed := [];
    }

    method Update(data: seq<u8>)
      requires Valid()
      modifies this
      ensures Valid() && fed == old(fed) + data
    {
      assert data[..0] == [];
      for i := 0 to |data|
        invariant Valid() && fed == old(fed) + data[..i]
      {
        value := CrcByteLoop(model, value, data[i]);
        assert (fed + [data[i]])[..|fed|] == fed;
        fed := fed + [data[i]];
      }
    }

    /**
      However the data was cut, the result is that of the whole: the remainder of all that was
      fed, turned end to end if the model says so, with the bits of the final word flipped.
     */
    method Finish() returns (r: W32)
      requires Valid()
      ensures exists rem: set<nat> ::
        IsRemainder(model, Dividend(model, InitialValue(model), MessageBits(model, fed)), rem) && IsFinalOf(model, rem, r)
    {
      r := value;
      if model.reflectOutput {
        r := ReflectLoop(r, model.width);
      }
      TurnedIsFinal(model, value, r);
      r := Xor(r, model.finalXor) * Ones(model.width);
      CrcIsRemainder(model, fed);
    }
  }
}
