/** The 32-bit frame word the control loop puts into a state machine's TX FIFO:
    one span length in the high 16 bits, the other in the low 16 bits.

    Words and PIO registers are integers in [0, 2^32). The bit operations the
    firmware uses on them are written out arithmetically: `w & 0xFFFF` is
    `w % 0x10000`, `w >> 16` is `w / 0x10000`, `v << 16` is `v * 0x10000`, and
    the OR of two fields that occupy disjoint bits is their sum. */
module FrameWord {

  /** A 32-bit value: a FIFO entry or the contents of a PIO register. */
  type Word = w: int | 0 <= w < 0x1_0000_0000

  /** All 32 bits set. */
  const WORD_MAX: Word := 0xFFFF_FFFF

  function Min(a: int, b: int): int { if a <= b then a else b }

  function Max(a: int, b: int): int { if a >= b then a else b }

  /** `max(0, min(maxLen, v))`: the length the send functions actually encode. */
  function Clamp(v: int, maxLen: nat): (h: nat)
    ensures h <= maxLen
    ensures 0 <= v <= maxLen ==> h == v
    ensures v < 0 ==> h == 0
    ensures v > maxLen ==> h == maxLen
  {
    Max(0, Min(maxLen, v))
  }

  /** Python's `v & 0xFFFF` on an integer of any sign: its low 16 bits in two's complement. */
  function Mask16(v: int): (r: nat)
    ensures r < 0x10000
    ensures 0 <= v < 0x10000 ==> r == v
    ensures (v - r) % 0x10000 == 0
  {
    v % 0x10000
  }

  /** The two 16-bit halves of a word. */
  datatype Fields = Fields(hi: nat, lo: nat)

  /** `((hi & 0xFFFF) << 16) | (lo & 0xFFFF)`: the word `_send_start`, `_send_stop`
      and `send_packed` put into the FIFO. Unpacking it gives back both masked fields. */
  function Pack(hi: int, lo: int): (w: Word)
    ensures Unpack(w) == Fields(Mask16(hi), Mask16(lo))
  {
    Mask16(hi) * 0x10000 + Mask16(lo)
  }

  /** The high half `w >> 16` and the low half `w & 0xFFFF`: two 16-bit values that
      recompose to `w`, so no bit of the word is lost. */
  function Unpack(w: Word): (f: Fields)
    ensures f.hi < 0x10000 && f.lo < 0x10000
    ensures f.hi * 0x10000 + f.lo == w
  {
    Fields(w / 0x10000, w % 0x10000)
  }

  /** Packing the halves of any word rebuilds that word. */
  lemma PackUnpack(w: Word)
    ensures Pack(Unpack(w).hi, Unpack(w).lo) == w
  {
  }
}
