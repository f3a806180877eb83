/**
  Machine words as the set of their one bits: `&` is intersection, `|` union,
  `& ~` difference, `^` symmetric difference, and a shift moves positions.
 */
module MachineWords {
  import opened Frames

  type W32 = b: set<nat> | forall i | i in b :: i < 32
  type W64 = b: set<nat> | forall i | i in b :: i < 64

  predicate Below(i: nat, n: nat) {
    i < n
  }

  /** The word with the lowest `n` bits set: 2^n - 1. */
  function Ones(n: nat): (b: set<nat>)
    ensures forall i {:trigger i in b} :: i in b <==> 0 <= i < n
  {
    set i: nat | i < n && Below(i, n)
  }

  /** x << s in a word of `width` bits: what passes its end is lost. */
  function Shl(x: set<nat>, s: nat, width: nat): (b: set<nat>)
    ensures forall k {:trigger k in b} :: k in b <==> s <= k < width && k - s in x
  {
    set i: nat | i in x && i + s < width :: i + s
  }

  /** x >> s. */
  function Shr(x: set<nat>, s: nat): (b: set<nat>)
    ensures forall k: nat {:trigger k in b} :: k in b <==> k + s in x
  {
    set i: nat | i in x && i >= s :: i - s
  }

  function Xor(a: set<nat>, b: set<nat>): (c: set<nat>)
    ensures forall i {:trigger i in c} :: i in c <==> (i in a) != (i in b)
  {
    (a - b) + (b - a)
  }

  // ---------- numbers ----------

  predicate BitOf(v: nat, i: nat) {
    if i == 0 then v % 2 == 1 else BitOf(v / 2, i - 1)
  }

  /** The one bits of a number in a word of `width` bits. */
  function BitsOf(v: nat, width: nat): (b: set<nat>)
    ensures forall i {:trigger i in b} :: i in b <==> 0 <= i < width && BitOf(v, i)
  {
    set i: nat | i < width && BitOf(v, i)
  }

  /** The number whose bits are those of `b` from position `from` on, `count` of them. */
  function NumberOf(b: set<nat>, from: nat, count: nat): nat
    decreases count
  {
    if count == 0 then 0 else (if from in b then 1 else 0) + 2 * NumberOf(b, from + 1, count - 1)
  }

  function Pow2(n: nat): nat {
    if n == 0 then 1 else 2 * Pow2(n - 1)
  }

  lemma {:induction false} Pow2Sum(a: nat, b: nat)
    ensures Pow2(a + b) == Pow2(a) * Pow2(b)
    decreases a
  {
    if a > 0 {
      Pow2Sum(a - 1, b);
    }
  }

  lemma Pow2Words()
    ensures Pow2(8) == 0x100 && Pow2(16) == 0x1_0000
    ensures Pow2(32) == 0x1_0000_0000 && Pow2(64) == 0x1_0000_0000_0000_0000
  {
    assert Pow2(4) == 16;
    Pow2Sum(4, 4);
    Pow2Sum(8, 8);
    Pow2Sum(16, 16);
    Pow2Sum(32, 32);
  }

  lemma {:induction false} NumberBounded(b: set<nat>, from: nat, count: nat)
    ensures NumberOf(b, from, count) < Pow2(count)
    decreases count
  {
    if count > 0 {
      NumberBounded(b, from + 1, count - 1);
    }
  }

  lemma {:induction false} NumberHasBits(b: set<nat>, from: nat, count: nat, i: nat)
    requires i < count
    ensures BitOf(NumberOf(b, from, count), i) <==> from + i in b
    decreases count
  {
    var rest := NumberOf(b, from + 1, count - 1);
    var v := NumberOf(b, from, count);
    assert v / 2 == rest && (v % 2 == 1 <==> from in b);
    if i > 0 {
      NumberHasBits(b, from + 1, count - 1, i - 1);
    }
  }

  /** Word sizes by name, so that no function is unrolled over them. */
  function Size32(): nat { 32 }

  function Size64(): nat { 64 }

  function ToU32(b: W32): u32 {
    NumberBounded(b, 0, Size32());
    Pow2Words();
    NumberOf(b, 0, Size32())
  }

  function ToU64(b: W64): u64 {
    NumberBounded(b, 0, Size64());
    Pow2Words();
    NumberOf(b, 0, Size64())
  }

  function OfU32(v: u32): W32 {
    BitsOf(v, 32)
  }

  function OfU64(v: u64): W64 {
    BitsOf(v, 64)
  }

  /** A word survives being written as a number. */
  lemma U64RoundTrip(b: W64)
    ensures OfU64(ToU64(b)) == b
  {
    forall i: nat | i < 64 ensures BitOf(ToU64(b), i) <==> i in b {
      NumberHasBits(b, 0, Size64(), i);
    }
  }
}
