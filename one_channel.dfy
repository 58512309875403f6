/** The single-channel firmware (mainz.py): START is a plain GPIO held high, STOP is a
    window generator on one PIO state machine, fed frame words by a control loop that
    steps the window length from the console or, in auto mode, on every one-second tick. */
module OneChannel {
  import opened FrameWord
  import opened Pio
  import opened Console
  import opened Lengths

  /** Slots per frame as the control loop counts them. */
  const MAX_LEN: nat := 30

  predicate InRange(v: int)
  {
    0 <= v <= MAX_LEN
  }

  /** `send_packed`: HIGH count h = clamp(length) in the low half, LOW count MAX_LEN - h
      in the high half; the two halves always add up to MAX_LEN. */
  function PackedWord(length: int): (w: Word)
    ensures Unpack(w).lo == Clamp(length, MAX_LEN)
    ensures Unpack(w).hi + Unpack(w).lo == MAX_LEN
  {
    var h := Clamp(length, MAX_LEN);
    var l := MAX_LEN - h;
    Pack(l, h)
  }

  /** The counts `stop_pwm_packed_set` loads from word w: Y (HIGH) from the low half,
      X (LOW) from the high half. */
  function Decode(w: Word): (c: Counts)
    ensures c == Counts(Unpack(w).lo, Unpack(w).hi)
  {
    // mov(osr, x); out(y, 16); mov(osr, isr); out(null, 16); mov(x, osr)
    Counts(Out16(w).bits, Out16(w).osr)
  }

  /** Decoding undoes `send_packed`: Y gets the clamped length, X the rest of the frame. */
  lemma DecodePackedWord(length: int)
    ensures var h := Clamp(length, MAX_LEN);
      Decode(PackedWord(length)) == Counts(h, MAX_LEN - h)
  {
  }

  /** The slots of one frame run on word w. There is no zero-count guard: `set(pins, 1)`
      precedes a loop that runs Y + 1 times, `set(pins, 0)` one that runs X + 1 times. */
  function FrameSlots(w: Word): seq<bool>
  {
    PhaseSlots(Decode(w))
  }

  function PhaseSlots(c: Counts): seq<bool>
  {
    Repeat(true, c.y + 1) + Repeat(false, c.x + 1)
  }

  /** The slots of consecutive whole frames run on the words ws. */
  function Waveform(ws: seq<Word>): seq<bool>
  {
    if ws == [] then [] else Waveform(ws[..|ws| - 1]) + FrameSlots(ws[|ws| - 1])
  }

  /** A frame for length h is HIGH for h + 1 slots and LOW for MAX_LEN - h + 1: always
      MAX_LEN + 2 slots, and both phases are entered even when a count is 0, so length 0
      still gives one HIGH slot and length MAX_LEN one LOW slot. */
  lemma PackedFrame(length: int)
    ensures var h := Clamp(length, MAX_LEN);
      var slots := FrameSlots(PackedWord(length));
      && slots == Repeat(true, h + 1) + Repeat(false, MAX_LEN - h + 1)
      && |slots| == MAX_LEN + 2
      && slots[0] && !slots[|slots| - 1]
  {
    DecodePackedWord(length);
  }

  /** A frame drives HIGH in exactly its first Y + 1 slots and LOW in the X + 1 after them. */
  lemma PhaseSlotsLevels(c: Counts)
    ensures var s := PhaseSlots(c);
      && |s| == c.y + c.x + 2
      && forall i :: 0 <= i < |s| ==> (s[i] <==> i <= c.y)
  {
  }

  /** Every frame, whatever its word, starts HIGH, ends LOW and lasts the two 16-bit halves
      of its word plus two slots. */
  lemma FrameSlotsShape(w: Word)
    ensures var s := FrameSlots(w);
      && |s| == Unpack(w).lo + Unpack(w).hi + 2
      && s[0] && !s[|s| - 1]
  {
    PhaseSlotsLevels(Decode(w));
  }

  /** The pin history of two runs of frames is the first run's slots followed by the second's. */
  lemma {:induction false} WaveformAppend(a: seq<Word>, b: seq<Word>)
    ensures Waveform(a + b) == Waveform(a) + Waveform(b)
    decreases |b|
  {
    if b == [] {
      assert a + b == a;
    } else {
      var front, last := b[..|b| - 1], b[|b| - 1];
      assert (a + b)[..|a + b| - 1] == a + front;
      assert (a + b)[|a + b| - 1] == last;
      calc {
        Waveform(a + b);
        Waveform(a + front) + FrameSlots(last);
        { WaveformAppend(a, front); }
        Waveform(a) + Waveform(front) + FrameSlots(last);
        Waveform(a) + Waveform(b);
      }
    }
  }

  /** n frames take at least 2n slots (no frame is empty) and at most n times the longest frame. */
  lemma {:induction false} WaveformBounds(ws: seq<Word>)
    ensures 2 * |ws| <= |Waveform(ws)| <= 2 * 0x10001 * |ws|
  {
    if ws != [] {
      var front := ws[..|ws| - 1];
      WaveformBounds(front);
      FrameSlotsShape(ws[|ws| - 1]);
      assert |Waveform(ws)| == |Waveform(front)| + |FrameSlots(ws[|ws| - 1])|;
      assert 2 * 0x10001 * |ws| == 2 * 0x10001 * |front| + 2 * 0x10001;
    }
  }

  /** Where the state machine is in its program. */
  datatype Stage =
    | WaitWord   // at the first, blocking `pull()`
    | Framing    // in the `wrap_target` .. `wrap` loop, at a frame boundary

  /** The state machine with its registers, TX FIFO and set-pin. `slots` is the level of the
      pin in every loop slot driven so far; `adopted` is the word each frame ran on. */
  class Generator {
    var active: bool
    var stage: Stage
    var x: Word
    var y: Word
    var isr: Word
    var osr: Word
    var fifo: seq<Word>
    var pin: bool
    var slots: seq<bool>
    ghost var adopted: seq<Word>

    /** The pin is at the level of the last slot driven (low, from `set_init`, before any),
        and no frame has run before the frame loop is entered. */
    ghost predicate Valid()
      reads this
    {
      && (if slots == [] then !pin else pin == slots[|slots| - 1])
      && (stage != Framing ==> adopted == [] && slots == [])
    }

    /** The pin history is made of whole frames, each run on one adopted word. Only the frame
        loop changes `slots` and `adopted`, so everything else preserves this. */
    ghost predicate Replayed()
      reads this`slots, this`adopted
    {
      slots == Waveform(adopted)
    }

    constructor ()
      ensures Valid() && Replayed() && !active && stage == WaitWord
      ensures x == 0 && y == 0 && isr == 0 && osr == 0
      ensures fifo == [] && !pin && slots == [] && adopted == []
    {
      active, stage := false, WaitWord;
      x, y, isr, osr := 0, 0, 0, 0;
      fifo, pin, slots, adopted := [], false, [], [];
    }

    /** `sm.put(w)`: the word joins the back of the TX FIFO. */
    method Put(w: Word)
      requires Valid()
      modifies this`fifo
      ensures Valid() && fifo == old(fifo) + [w]
    {
      fifo := fifo + [w];
    }

    /** `sm.active(on)` */
    method SetActive(on: bool)
      requires Valid()
      modifies this`active
      ensures Valid() && active == on
    {
      active := on;
    }

    /** `pull(); mov(x, osr)`: blocks while the FIFO is empty, otherwise takes its head
        into OSR and X and enters the frame loop. */
    method FirstPull()
      requires Valid() && active && stage == WaitWord
      modifies this`osr, this`x, this`fifo, this`stage
      ensures Valid()
      ensures old(fifo) == [] ==> stage == WaitWord && fifo == [] && x == old(x) && osr == old(osr)
      ensures old(fifo) != [] ==>
        stage == Framing && osr == old(fifo)[0] && x == osr && fifo == old(fifo)[1..]
    {
      if fifo != [] {
        osr := fifo[0];
        fifo := fifo[1..];
        x := osr;
        stage := Framing;
      }
    }

    /** One pass from `wrap_target` to `wrap`: adopt the FIFO head if there is one and
        otherwise the previous word, back it up in ISR, split it into the two counts,
        drive HIGH then LOW, and restore X from ISR so the next frame starts from the
        adopted word. The frame's slots depend on that one word only. */
    method Frame()
      requires Valid() && Replayed() && active && stage == Framing
      modifies this`x, this`y, this`isr, this`osr, this`fifo, this`pin, this`slots, this`adopted
      ensures Valid() && Replayed()
      ensures var w := Next(Boundary(old(x), old(fifo))).x;
        && Boundary(x, fifo) == Next(Boundary(old(x), old(fifo)))
        && adopted == old(adopted) + [w]
        && slots == old(slots) + FrameSlots(w)
        && isr == w && osr == Unpack(w).hi && y == WORD_MAX
        && !pin
    {
      AdoptWord();
      LoadCounts();
      DrivePhases();
      x := isr;                                 // mov(x, isr)
      adopted := adopted + [isr];
      assert adopted[..|adopted| - 1] == old(adopted);
    }

    /** `mov(osr, x); pull(noblock); mov(x, osr); mov(isr, x)`: take the next FIFO word,
        or keep X when the FIFO is empty, and back it up in ISR. */
    method AdoptWord()
      modifies this`x, this`isr, this`osr, this`fifo
      ensures Boundary(x, fifo) == Next(Boundary(old(x), old(fifo)))
      ensures isr == x && osr == x
    {
      osr := x;                                 // mov(osr, x)
      var pulled := PullNoBlock(x, fifo);       // pull(noblock)
      osr, fifo := pulled.osr, pulled.fifo;
      x := osr;                                 // mov(x, osr)
      isr := x;                                 // mov(isr, x)
    }

    /** `mov(osr, x); out(y, 16); mov(osr, isr); out(null, 16); mov(x, osr)`:
        Y gets the low half of the word, X the high half. */
    method LoadCounts()
      requires isr == x
      modifies this`x, this`y, this`osr
      ensures Counts(y, x) == Decode(isr)
      ensures osr == Unpack(isr).hi
    {
      osr := x;                                 // mov(osr, x)
      y, osr := Out16(osr).bits, Out16(osr).osr;   // out(y, 16)
      osr := isr;                               // mov(osr, isr)
      osr := Out16(osr).osr;                    // out(null, 16)
      x := osr;                                 // mov(x, osr)
    }

    /** `set(pins, 1)` and a loop of Y + 1 slots, then `set(pins, 0)` and a loop of
        X + 1 slots, whatever the counts. */
    method DrivePhases()
      modifies this`x, this`y, this`pin, this`slots
      ensures slots == old(slots) + PhaseSlots(old(Counts(y, x)))
      ensures !pin && y == WORD_MAX
    {
      var high, low: seq<bool>;
      pin := true;                              // set(pins, 1)
      high, y := CountLoop(y, true);            // jmp(y_dec, "hi")
      pin := false;                             // set(pins, 0)
      low, x := CountLoop(x, false);            // jmp(x_dec, "lo")
      slots := slots + high + low;
    }

    /** The `wrap_target` .. `wrap` loop run for `frames` frames with no word put meanwhile:
        the frames run on the FIFO's words one per frame and in order, then on the last one. */
    method RunFrames(frames: nat)
      requires Valid() && Replayed() && active && stage == Framing
      modifies this`x, this`y, this`isr, this`osr, this`fifo, this`pin, this`slots, this`adopted
      ensures Valid() && Replayed()
      ensures Boundary(x, fifo) == After(Boundary(old(x), old(fifo)), frames)
      ensures adopted == old(adopted) + Adopted(Boundary(old(x), old(fifo)), frames)
    {
      ghost var start := Boundary(x, fifo);
      var i := 0;
      while i < frames
        invariant 0 <= i <= frames
        invariant Valid() && Replayed() && active && stage == Framing
        invariant Boundary(x, fifo) == After(start, i)
        invariant adopted == old(adopted) + Adopted(start, i)
      {
        Frame();
        AdoptedStep(start, i);
        i := i + 1;
      }
    }
  }

  /** What the control loop reports for one command line. */
  datatype Reply =
    | Sent        // the length moved and its new word was sent
    | AutoOn      // "AUTO_DEMO: ON"
    | RangeHint   // the range hint; nothing changed

  datatype Outcome = Outcome(length: int, reply: Reply)

  /** One manual command: 'w'/'s' step `length` up/down, 'a' turns auto mode on; a step
      past a bound or any other input gets the range hint. */
  function ManualStep(cmd: string, length: int): (o: Outcome)
    ensures InRange(length) ==> InRange(o.length)
    ensures o.reply == Sent ==> o.length == length + (if cmd == "w" then 1 else -1)
    ensures o.reply != Sent ==> o.length == length
    ensures o.reply == AutoOn <==> cmd == "a"
    ensures o.reply == RangeHint <==>
      cmd !in {"w", "s", "a"} || (cmd == "w" && length >= MAX_LEN) || (cmd == "s" && length <= 0)
  {
    if cmd == "w" && length < MAX_LEN then Outcome(length + 1, Sent)
    else if cmd == "s" && length > 0 then Outcome(length - 1, Sent)
    else if cmd == "a" then Outcome(length, AutoOn)
    else Outcome(length, RangeHint)
  }

  /** The module-level state: the START pin, the state machine, the window length and the
      auto flag. `sent` records every word sent, in order; `looping` is false once Ctrl+C
      has ended the control loop. */
  class Controller {
    const sm: Generator
    var startPin: bool
    var length: int
    var autoDemo: bool
    var looping: bool
    ghost var sent: seq<Word>

    ghost predicate Valid()
      reads this, sm
    {
      sm.Valid() && InRange(length)
    }

    /** Start-up: START is driven high, the first word (length 0) is queued, and only then
        is the state machine activated, so its first `pull()` finds a word waiting. */
    constructor ()
      ensures Valid() && fresh(sm)
      ensures startPin && length == 0 && !autoDemo && looping
      ensures sent == [PackedWord(0)]
      ensures sm.active && sm.stage == WaitWord && sm.fifo == [PackedWord(0)]
      ensures sm.slots == [] && sm.Replayed()
    {
      startPin := true;                         // start_pin.value(1)
      sm := new Generator();
      length := 0;
      autoDemo, looping := false, true;
      sent := [];
      new;
      SendPacked();
      sm.SetActive(true);
    }

    /** `send_packed` */
    method SendPacked()
      requires Valid()
      modifies sm`fifo, this`sent
      ensures Valid()
      ensures sm.fifo == old(sm.fifo) + [PackedWord(length)]
      ensures sent == old(sent) + [PackedWord(length)]
    {
      var h := Max(0, Min(MAX_LEN, length));
      var l := MAX_LEN - h;
      var packed := Pack(l, h);
      sm.Put(packed);
      sent := sent + [packed];
    }

    /** One line read in manual mode. An accepted step moves the length by one, within
        [0, MAX_LEN], and sends exactly one word; 'a' turns auto mode on; anything else
        changes nothing and gets the range hint. */
    method Command(line: string) returns (reply: Reply)
      requires Valid() && looping && !autoDemo
      modifies this`length, this`autoDemo, this`sent, sm`fifo
      ensures Valid()
      ensures Outcome(length, reply) == ManualStep(Normalize(line), old(length))
      ensures autoDemo == (reply == AutoOn)
      ensures reply == Sent ==> sm.fifo == old(sm.fifo) + [PackedWord(length)] && sent == old(sent) + [PackedWord(length)]
      ensures reply != Sent ==> sm.fifo == old(sm.fifo) && sent == old(sent)
    {
      var cmd := Normalize(line);
      if cmd == "w" && length < MAX_LEN {
        length := length + 1;
        SendPacked();
        reply := Sent;
      } else if cmd == "s" && length > 0 {
        length := length - 1;
        SendPacked();
        reply := Sent;
      } else if cmd == "a" {
        autoDemo := true;
        reply := AutoOn;
      } else {
        reply := RangeHint;
      }
    }

    /** One auto tick (at least 1000 ms since the last): the length wraps forward by one
        and its word is sent. Input is no longer read, so auto mode stays on. */
    method Tick()
      requires Valid() && looping && autoDemo
      modifies this`length, this`sent, sm`fifo
      ensures Valid()
      ensures length == AutoAdvance(old(length), MAX_LEN)
      ensures sm.fifo == old(sm.fifo) + [PackedWord(length)]
      ensures sent == old(sent) + [PackedWord(length)]
    {
      length := AutoAdvance(length, MAX_LEN);   // (length + 1) % (MAX_LEN + 1)
      SendPacked();
    }

    /** Ctrl+C: the state machine is deactivated and the control loop ends; its FIFO,
        registers and pin keep their contents. */
    method Abort()
      requires Valid() && looping
      modifies this`looping, sm`active
      ensures Valid() && !looping && !sm.active
    {
      sm.SetActive(false);
      looping := false;
    }
  }
}
