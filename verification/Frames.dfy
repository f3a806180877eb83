/** Machine words and the CAN frame every part of the transaction subsystem exchanges. */
module Frames {

  type u8 = x: int | 0 <= x < 0x100
  type u16 = x: int | 0 <= x < 0x1_0000
  type u32 = x: int | 0 <= x < 0x1_0000_0000
  type u64 = x: int | 0 <= x < 0x1_0000_0000_0000_0000

  /** 32-bit counters wrap at this. */
  const WORD := 0x1_0000_0000

  datatype Option<+T> = None | Some(value: T)

  const PAYLOAD_MAX_CLASSIC := 8
  const PAYLOAD_MAX_FD := 64

  type Payload = p: seq<u8> | |p| <= PAYLOAD_MAX_FD witness []

  /** A frame on the bus. The C structure's payload_length is |payload|. */
  datatype Frame = Frame(canId: u32, channel: u8, frameFlags: u8, echo: bool, payload: Payload)

  const FLAG_FD: u8 := 1
  const FLAG_BRS: u8 := 2

  /** Whether bit `weight` (a power of two) is set in a flag byte. */
  predicate HasFlag(flags: u8, weight: nat)
    requires weight > 0
  {
    flags / weight % 2 == 1
  }

  predicate IsPayloadLengthValid(length: nat, frameFlags: u8) {
    length <= if HasFlag(frameFlags, FLAG_FD) then PAYLOAD_MAX_FD else PAYLOAD_MAX_CLASSIC
  }

  /** The data lengths a CAN FD frame over 8 bytes can have. */
  const FD_LENGTHS: seq<nat> := [12, 16, 20, 24, 32, 48, 64]

  /** Frame lengths the bus can carry: 0 to 8, or one of the FD lengths. */
  predicate IsFrameLength(length: nat) {
    length <= PAYLOAD_MAX_CLASSIC || length in FD_LENGTHS
  }

  function Min(a: nat, b: nat): nat {
    if a < b then a else b
  }

  // ---------- wrapping counters ----------

  /** A difference of wrapped counters follows the counter that moves. */
  lemma WrapDifference(a: int, b: int, n: int)
    ensures ((a + n) % WORD - b) % WORD == ((a - b) % WORD + n) % WORD
  {
    var k, j := (a + n) / WORD, (a - b) / WORD;
    assert (a + n) % WORD - b == (a - b) % WORD + n + (j - k) * WORD;
    ModShift((a - b) % WORD + n, j - k);
  }

  lemma WrapSum(x: int, n: int)
    ensures (x % WORD + n) % WORD == (x + n) % WORD
  {
    ModShift(x % WORD + n, x / WORD);
  }

  lemma ModShift(x: int, k: int)
    ensures (x + k * WORD) % WORD == x % WORD
  {
    assert x + k * WORD == (x / WORD + k) * WORD + x % WORD;
  }
}
