/** The RP2040 PIO instructions the firmware's programs use, and the frame-boundary
    discipline shared by all three programs: at `wrap_target` each program runs
    `mov(osr, x); pull(noblock); mov(x, osr)` and at the end of the frame it
    restores X from ISR, so X always holds the word of the frame just run. */
module Pio {
  import opened FrameWord

  /** `jmp(x_dec, …)` / `jmp(y_dec, …)` decrement the register whether or not they
      jump; zero wraps round to all ones. */
  function Dec(r: Word): (d: Word)
    ensures r != 0 ==> d == r - 1
    ensures r == 0 ==> d == WORD_MAX
  {
    if r == 0 then WORD_MAX else r - 1
  }

  /** What `out(dest, 16)` does under `out_shiftdir=PIO.SHIFT_RIGHT`: the low 16 bits
      of OSR go to the destination and OSR is shifted right by 16. */
  datatype Shifted = Shifted(bits: Word, osr: Word)

  function Out16(osr: Word): (r: Shifted)
    ensures r.bits < 0x10000 && r.osr < 0x10000
    ensures r.osr * 0x10000 + r.bits == osr
  {
    Shifted(Unpack(osr).lo, Unpack(osr).hi)
  }

  /** OSR and the TX FIFO after a `pull`. */
  datatype Pulled = Pulled(osr: Word, fifo: seq<Word>)

  /** `pull(noblock)`: the FIFO head moves to OSR; with the FIFO empty, OSR gets a copy of X. */
  function PullNoBlock(x: Word, fifo: seq<Word>): (p: Pulled)
    ensures fifo != [] ==> [p.osr] + p.fifo == fifo
    ensures fifo == [] ==> p.osr == x && p.fifo == []
  {
    if fifo == [] then Pulled(x, []) else Pulled(fifo[0], fifo[1..])
  }

  /** The two counts a frame loads, Y for the first phase and X for the second. */
  datatype Counts = Counts(y: Word, x: Word)

  /** `n` slots in a row during which the pin is at `level`. */
  function Repeat(level: bool, n: nat): (s: seq<bool>)
    ensures |s| == n
    ensures forall i :: 0 <= i < n ==> s[i] == level
  {
    seq(n, _ => level)
  }

  /** The count loop `label(L); [set(pins, level);] jmp(r_dec, L)` entered with the
      register at `n`. JMP tests the register before it decrements it, so the body runs
      for n, n - 1, ..., 0: n + 1 times, the pin at `level` in every iteration (a "slot").
      Returns the level of every slot and the value the register is left with. */
  method CountLoop(n: Word, level: bool) returns (slots: seq<bool>, r: Word)
    ensures slots == Repeat(level, n + 1)
    ensures r == WORD_MAX
  {
    r := n;
    slots := [];
    var jumped := true;
    while jumped
      invariant jumped ==> |slots| + r == n
      invariant !jumped ==> |slots| == n + 1 && r == WORD_MAX
      invariant slots == Repeat(level, |slots|)
      decreases if jumped then r + 1 else 0
    {
      slots := slots + [level];   // one iteration of the body
      jumped := r != 0;           // jmp(r_dec, L): tested before the decrement
      r := Dec(r);
    }
  }

  /** X and the TX FIFO at a frame boundary (`wrap_target`). */
  datatype Boundary = Boundary(x: Word, fifo: seq<Word>)

  /** The next boundary: the frame adopts the FIFO head if there is one and otherwise
      reuses X, and it ends with X restored to the adopted word. */
  function Next(b: Boundary): (n: Boundary)
    ensures b.fifo != [] ==> n == Boundary(b.fifo[0], b.fifo[1..])
    ensures b.fifo == [] ==> n == b
  {
    var p := PullNoBlock(b.x, b.fifo);
    Boundary(p.osr, p.fifo)
  }

  /** The boundary reached after `frames` frames with nothing put into the FIFO meanwhile. */
  function After(b: Boundary, frames: nat): Boundary
    decreases frames
  {
    if frames == 0 then b else Next(After(b, frames - 1))
  }

  /** The words those `frames` frames run on, in order. */
  function Adopted(b: Boundary, frames: nat): (ws: seq<Word>)
    ensures |ws| == frames
    decreases frames
  {
    if frames == 0 then [] else Adopted(b, frames - 1) + [Next(After(b, frames - 1)).x]
  }

  /** One more frame: the boundary advances by `Next` and the frame runs on the word it adopts. */
  lemma AdoptedStep(b: Boundary, frames: nat)
    ensures After(b, frames + 1) == Next(After(b, frames))
    ensures Adopted(b, frames + 1) == Adopted(b, frames) + [Next(After(b, frames)).x]
  {
  }

  /** The k-th word after the boundary: the k-th queued word while the FIFO lasts, then
      the last word forever (the one X held, if nothing was queued). */
  function Queued(b: Boundary, k: nat): Word
  {
    if k < |b.fifo| then b.fifo[k] else if b.fifo == [] then b.x else b.fifo[|b.fifo| - 1]
  }

  /** After k frames the FIFO has lost its first k words (or all of them) and X holds
      the word of the k-th frame. */
  lemma {:induction false} AfterFrames(b: Boundary, k: nat)
    ensures After(b, k).fifo == b.fifo[Min(k, |b.fifo|)..]
    ensures After(b, k).x == if k == 0 then b.x else Queued(b, k - 1)
  {
    if k > 0 {
      AfterFrames(b, k - 1);
    }
  }

  /** The FIFO is a queue, not a latest-wins mailbox: frame k runs on the k-th queued
      word, one word per frame and in the order they were put, and once the FIFO is
      empty every further frame reuses the last word. */
  lemma {:induction false} AdoptedInFifoOrder(b: Boundary, frames: nat, k: nat)
    requires k < frames
    ensures Adopted(b, frames)[k] == Queued(b, k)
  {
    if k < frames - 1 {
      assert Adopted(b, frames)[k] == Adopted(b, frames - 1)[k];
      AdoptedInFifoOrder(b, frames - 1, k);
    } else {
      assert Adopted(b, frames)[k] == Next(After(b, k)).x;
      AfterFrames(b, k);
      var a := After(b, k);
      if k < |b.fifo| {
        assert a.fifo == b.fifo[k..] && a.fifo != [];
        assert Next(a).x == b.fifo[k];
      } else {
        assert a.fifo == [];
        assert Next(a).x == a.x;
        if k > 0 && b.fifo != [] {
          assert Queued(b, k - 1) == b.fifo[|b.fifo| - 1];
        }
      }
    }
  }
}
