/** The two-channel firmware (main.py): a START and a STOP window generator, each a
    PIO state machine running its own program, released together by the SYNC pin,
    fed frame words by a control loop that steps their lengths from the console or,
    in auto mode, on every one-second tick. */
module TwoChannel {
  import opened FrameWord
  import opened Pio
  import opened Console
  import opened Lengths

  /** Slots per frame as the control loop counts them. */
  const MAX_LEN: nat := 50

  predicate InRange(v: int)
  {
    0 <= v <= MAX_LEN
  }

  /** `_send_start`: HIGH count h = clamp(len_start) in the low half, LOW count
      MAX_LEN - h in the high half; the two halves always add up to MAX_LEN. */
  function StartWord(lenStart: int): (w: Word)
    ensures Unpack(w).lo == Clamp(lenStart, MAX_LEN)
    ensures Unpack(w).hi + Unpack(w).lo == MAX_LEN
  {
    var h := Clamp(lenStart, MAX_LEN);
    var l := MAX_LEN - h;
    Pack(l, h)
  }

  /** `_send_stop`: LOW-prefix count p = clamp(len_stop) in the high half, HIGH count
      MAX_LEN - p in the low half; the two halves always add up to MAX_LEN. */
  function StopWord(lenStop: int): (w: Word)
    ensures Unpack(w).hi == Clamp(lenStop, MAX_LEN)
    ensures Unpack(w).hi + Unpack(w).lo == MAX_LEN
  {
    var lowPrefix := Clamp(lenStop, MAX_LEN);
    var highRest := MAX_LEN - lowPrefix;
    Pack(lowPrefix, highRest)
  }

  /** The two PIO programs: `win_pwm_packed_set_sync` drives HIGH for Y slots, then LOW
      for X slots (START); `win_pwm_packed_low_high_sync` drives LOW for Y slots, then
      HIGH for X slots (STOP). */
  datatype Program = HighThenLow | LowThenHigh

  /** The level of the phase counted by Y, which comes first. */
  function FirstLevel(p: Program): bool
  {
    p == HighThenLow
  }

  /** The counts the frame-boundary code of program p loads into Y and X from word w. */
  function Decode(p: Program, w: Word): (c: Counts)
    ensures p == HighThenLow ==> c == Counts(Unpack(w).lo, Unpack(w).hi)
    ensures p == LowThenHigh ==> c == Counts(Unpack(w).hi, Unpack(w).lo)
  {
    match p
    // mov(osr, x); out(y, 16); mov(osr, isr); out(null, 16); mov(x, osr)
    case HighThenLow => Counts(Out16(w).bits, Out16(w).osr)
    // mov(osr, x); out(null, 16); mov(y, osr); mov(osr, isr); out(x, 16)
    case LowThenHigh => Counts(Out16(w).osr, Out16(w).bits)
  }

  /** The word the control loop sends to the state machine running program p. */
  function ChannelWord(p: Program, len: int): Word
  {
    match p
    case HighThenLow => StartWord(len)
    case LowThenHigh => StopWord(len)
  }

  function Other(p: Program): Program
  {
    if p == HighThenLow then LowThenHigh else HighThenLow
  }

  /** Each program decodes its own channel's word into Y = the clamped length (its first
      phase) and X = the rest of the frame. The two channels lay the fields out oppositely:
      the other program would read the same word with the counts swapped. */
  lemma DecodeChannelWord(p: Program, len: int)
    ensures var h := Clamp(len, MAX_LEN);
      && Decode(p, ChannelWord(p, len)) == Counts(h, MAX_LEN - h)
      && Decode(Other(p), ChannelWord(p, len)) == Counts(MAX_LEN - h, h)
  {
  }

  /** The slots of one frame run on word w: the first phase for Y + 1 iterations, the
      second for X + 1, where `jmp(not_y)` / `jmp(not_x)` skip a phase whose count is 0. */
  function FrameSlots(p: Program, w: Word): seq<bool>
  {
    PhaseSlots(p, Decode(p, w))
  }

  function PhaseSlots(p: Program, c: Counts): seq<bool>
  {
    (if c.y == 0 then [] else Repeat(FirstLevel(p), c.y + 1))
    + (if c.x == 0 then [] else Repeat(!FirstLevel(p), c.x + 1))
  }

  /** The slots of consecutive whole frames run on the words ws. */
  function Waveform(p: Program, ws: seq<Word>): seq<bool>
  {
    if ws == [] then [] else Waveform(p, ws[..|ws| - 1]) + FrameSlots(p, ws[|ws| - 1])
  }

  /** A channel frame for length h: h + 1 slots at the first level (none when h = 0),
      then MAX_LEN - h + 1 at the other (none when h = MAX_LEN). So a zero count skips
      its phase entirely, and a frame is MAX_LEN + 2 slots long when both counts are
      non-zero but MAX_LEN + 1 when one of them is zero: frame length is not constant. */
  lemma ChannelFrame(p: Program, len: int)
    ensures var h := Clamp(len, MAX_LEN);
      var slots := FrameSlots(p, ChannelWord(p, len));
      && (0 < h < MAX_LEN ==>
            slots == Repeat(FirstLevel(p), h + 1) + Repeat(!FirstLevel(p), MAX_LEN - h + 1))
      && (h == 0 ==> slots == Repeat(!FirstLevel(p), MAX_LEN + 1))
      && (h == MAX_LEN ==> slots == Repeat(FirstLevel(p), MAX_LEN + 1))
      && |slots| == (if 0 < h < MAX_LEN then MAX_LEN + 2 else MAX_LEN + 1)
  {
    DecodeChannelWord(p, len);
    var h := Clamp(len, MAX_LEN);
    assert FrameSlots(p, ChannelWord(p, len)) == PhaseSlots(p, Counts(h, MAX_LEN - h));
    CountsFrame(p, h);
  }

  /** The phase slots for counts h and MAX_LEN - h, case by case. */
  lemma CountsFrame(p: Program, h: nat)
    requires h <= MAX_LEN
    ensures var slots := PhaseSlots(p, Counts(h, MAX_LEN - h));
      && (0 < h < MAX_LEN ==>
            slots == Repeat(FirstLevel(p), h + 1) + Repeat(!FirstLevel(p), MAX_LEN - h + 1))
      && (h == 0 ==> slots == Repeat(!FirstLevel(p), MAX_LEN + 1))
      && (h == MAX_LEN ==> slots == Repeat(FirstLevel(p), MAX_LEN + 1))
      && |slots| == (if 0 < h < MAX_LEN then MAX_LEN + 2 else MAX_LEN + 1)
  {
    var first, second := Repeat(FirstLevel(p), h + 1), Repeat(!FirstLevel(p), MAX_LEN - h + 1);
    if h == 0 {
      assert PhaseSlots(p, Counts(h, MAX_LEN - h)) == [] + second;
    } else if h == MAX_LEN {
      assert PhaseSlots(p, Counts(h, MAX_LEN - h)) == first + [];
    }
  }

  /** A zero count never drives its level: the guarded phase is skipped, not entered for one slot. */
  lemma ZeroCountSkipsPhase(p: Program, w: Word)
    ensures Decode(p, w).y == 0 ==> FirstLevel(p) !in FrameSlots(p, w)
    ensures Decode(p, w).x == 0 ==> !FirstLevel(p) !in FrameSlots(p, w)
  {
  }

  /** Slot i of a frame is at the first level exactly when it falls in the first phase,
      which lasts Y + 1 slots unless Y is 0; the second phase lasts X + 1 slots unless X is 0. */
  lemma PhaseSlotsLevels(p: Program, c: Counts)
    ensures var s, first := PhaseSlots(p, c), if c.y == 0 then 0 else c.y + 1;
      && |s| == first + (if c.x == 0 then 0 else c.x + 1)
      && forall i :: 0 <= i < |s| ==> (s[i] == FirstLevel(p) <==> i < first)
  {
  }

  /** A frame lasts at most two 16-bit counts plus two slots, the all-zero word drives no
      slot at all, and a frame whose first count is non-zero starts at the first level. */
  lemma FrameSlotsShape(p: Program, w: Word)
    ensures |FrameSlots(p, w)| <= 2 * 0x10001
    ensures FrameSlots(p, w) == [] <==> w == 0
    ensures Decode(p, w).y > 0 ==> |FrameSlots(p, w)| > 0 && FrameSlots(p, w)[0] == FirstLevel(p)
  {
    PhaseSlotsLevels(p, Decode(p, w));
  }

  /** The pin history of two runs of frames is the first run's slots followed by the second's. */
  lemma {:induction false} WaveformAppend(p: Program, a: seq<Word>, b: seq<Word>)
    ensures Waveform(p, a + b) == Waveform(p, a) + Waveform(p, b)
    decreases |b|
  {
    if b == [] {
      assert a + b == a;
    } else {
      var front, last := b[..|b| - 1], b[|b| - 1];
      assert (a + b)[..|a + b| - 1] == a + front;
      assert (a + b)[|a + b| - 1] == last;
      calc {
        Waveform(p, a + b);
        Waveform(p, a + front) + FrameSlots(p, last);
        { WaveformAppend(p, a, front); }
        Waveform(p, a) + Waveform(p, front) + FrameSlots(p, last);
        Waveform(p, a) + Waveform(p, b);
      }
    }
  }

  /** The pin history of n frames is at most n times the longest frame. */
  lemma {:induction false} WaveformBound(p: Program, ws: seq<Word>)
    ensures |Waveform(p, ws)| <= 2 * 0x10001 * |ws|
  {
    if ws != [] {
      var front := ws[..|ws| - 1];
      WaveformBound(p, front);
      FrameSlotsShape(p, ws[|ws| - 1]);
      assert |Waveform(p, ws)| == |Waveform(p, front)| + |FrameSlots(p, ws[|ws| - 1])|;
      assert 2 * 0x10001 * |ws| == 2 * 0x10001 * |front| + 2 * 0x10001;
    }
  }

  /** Where a state machine is in its program. */
  datatype Stage =
    | WaitSync   // at `wait(1, pin, 0)`
    | WaitWord   // at the first, blocking `pull()`
    | Framing    // in the `wrap_target` .. `wrap` loop, at a frame boundary

  /** One state machine with its registers, TX FIFO and set-pin. `slots` is the level of
      the pin in every loop slot driven so far; `adopted` is the word each frame ran on. */
  class Generator {
    const program: Program
    var active: bool
    var stage: Stage
    var x: Word
    var y: Word
    var isr: Word
    var osr: Word
    var fifo: seq<Word>
    var pin: bool
    var slots: seq<bool>
    ghost var adopted: seq<Word>

    /** The pin is at the level of the last slot driven (low, from `set_init`, before any),
        and no frame has run before the frame loop is entered. */
    ghost predicate Valid()
      reads this
    {
      && (if slots == [] then !pin else pin == slots[|slots| - 1])
      && (stage != Framing ==> adopted == [] && slots == [])
    }

    /** The pin history is made of whole frames, each run on one adopted word. Only the frame
        loop changes `slots` and `adopted`, so everything else preserves this. */
    ghost predicate Replayed()
      reads this`slots, this`adopted
    {
      slots == Waveform(program, adopted)
    }

    constructor (program: Program)
      ensures Valid() && Replayed() && this.program == program
      ensures !active && stage == WaitSync
      ensures x == 0 && y == 0 && isr == 0 && osr == 0
      ensures fifo == [] && !pin && slots == [] && adopted == []
    {
      this.program := program;
      active, stage := false, WaitSync;
      x, y, isr, osr := 0, 0, 0, 0;
      fifo, pin, slots, adopted := [], false, [], [];
    }

    /** `sm.put(w)`: the word joins the back of the TX FIFO. */
    method Put(w: Word)
      requires Valid()
      modifies this`fifo
      ensures Valid() && fifo == old(fifo) + [w]
    {
      fifo := fifo + [w];
    }

    /** `sm.active(on)` */
    method SetActive(on: bool)
      requires Valid()
      modifies this`active
      ensures Valid() && active == on
    {
      active := on;
    }

    /** `wait(1, pin, 0)` polling SYNC: the program moves on only once SYNC reads high, and
        until then it neither pulls a word nor drives its pin. */
    method WaitForSync(sync: bool)
      requires Valid() && active && stage == WaitSync
      modifies this`stage
      ensures Valid()
      ensures stage == if sync then WaitWord else WaitSync
    {
      if sync {
        stage := WaitWord;
      }
    }

    /** `pull(); mov(x, osr)`: blocks while the FIFO is empty, otherwise takes its head
        into OSR and X and enters the frame loop. */
    method FirstPull()
      requires Valid() && active && stage == WaitWord
      modifies this`osr, this`x, this`fifo, this`stage
      ensures Valid()
      ensures old(fifo) == [] ==> stage == WaitWord && fifo == [] && x == old(x) && osr == old(osr)
      ensures old(fifo) != [] ==>
        stage == Framing && osr == old(fifo)[0] && x == osr && fifo == old(fifo)[1..]
    {
      if fifo != [] {
        osr := fifo[0];
        fifo := fifo[1..];
        x := osr;
        stage := Framing;
      }
    }

    /** One pass from `wrap_target` to `wrap`: adopt the FIFO head if there is one and
        otherwise the previous word, back it up in ISR, split it into the two counts,
        drive the two phases, and restore X from ISR so the next frame starts from the
        adopted word. The frame's slots depend on that one word only. */
    method Frame()
      requires Valid() && Replayed() && active && stage == Framing
      modifies this`x, this`y, this`isr, this`osr, this`fifo, this`pin, this`slots, this`adopted
      ensures Valid() && Replayed()
      ensures var w := Next(Boundary(old(x), old(fifo))).x;
        && Boundary(x, fifo) == Next(Boundary(old(x), old(fifo)))
        && adopted == old(adopted) + [w]
        && slots == old(slots) + FrameSlots(program, w)
        && isr == w && osr == Unpack(w).hi
        && y == (if Decode(program, w).y == 0 then 0 else WORD_MAX)
    {
      AdoptWord();
      LoadCounts();
      DrivePhases();
      x := isr;                                 // mov(x, isr)
      adopted := adopted + [isr];
      assert adopted[..|adopted| - 1] == old(adopted);
    }

    /** `mov(osr, x); pull(noblock); mov(x, osr); mov(isr, x)`: take the next FIFO word,
        or keep X when the FIFO is empty, and back it up in ISR. */
    method AdoptWord()
      modifies this`x, this`isr, this`osr, this`fifo
      ensures Boundary(x, fifo) == Next(Boundary(old(x), old(fifo)))
      ensures isr == x && osr == x
    {
      osr := x;                                 // mov(osr, x)
      var pulled := PullNoBlock(x, fifo);       // pull(noblock)
      osr, fifo := pulled.osr, pulled.fifo;
      x := osr;                                 // mov(x, osr)
      isr := x;                                 // mov(isr, x)
    }

    /** Load Y with the first phase's count and X with the second's from the word in X and ISR. */
    method LoadCounts()
      requires isr == x
      modifies this`x, this`y, this`osr
      ensures Counts(y, x) == Decode(program, isr)
      ensures osr == Unpack(isr).hi
    {
      match program {
        case HighThenLow =>
          osr := x;                             // mov(osr, x)
          y, osr := Out16(osr).bits, Out16(osr).osr;   // out(y, 16)
          osr := isr;                           // mov(osr, isr)
          osr := Out16(osr).osr;                // out(null, 16)
          x := osr;                             // mov(x, osr)
        case LowThenHigh =>
          osr := x;                             // mov(osr, x)
          osr := Out16(osr).osr;                // out(null, 16)
          y := osr;                             // mov(y, osr)
          osr := isr;                           // mov(osr, isr)
          x, osr := Out16(osr).bits, Out16(osr).osr;   // out(x, 16)
      }
    }

    /** The two guarded count loops: the first level for Y + 1 slots unless Y is 0, then
        the other level for X + 1 slots unless X is 0. */
    method DrivePhases()
      modifies this`x, this`y, this`pin, this`slots
      ensures var driven := PhaseSlots(program, old(Counts(y, x)));
        && slots == old(slots) + driven
        && pin == (if driven == [] then old(pin) else driven[|driven| - 1])
        && y == (if old(y) == 0 then 0 else WORD_MAX)
    {
      var level := FirstLevel(program);
      var first: seq<bool> := [];
      var second: seq<bool> := [];
      if y != 0 {                               // jmp(not_y, after_first)
        first, y := CountLoop(y, level);
      }
      if x != 0 {                               // jmp(not_x, after_second)
        second, x := CountLoop(x, !level);
      }
      var driven := first + second;
      slots := slots + driven;
      if driven != [] {
        pin := driven[|driven| - 1];
      }
    }

    /** The `wrap_target` .. `wrap` loop run for `frames` frames with no word put meanwhile:
        the frames run on the FIFO's words one per frame and in order, then on the last one. */
    method RunFrames(frames: nat)
      requires Valid() && Replayed() && active && stage == Framing
      modifies this`x, this`y, this`isr, this`osr, this`fifo, this`pin, this`slots, this`adopted
      ensures Valid() && Replayed()
      ensures Boundary(x, fifo) == After(Boundary(old(x), old(fifo)), frames)
      ensures adopted == old(adopted) + Adopted(Boundary(old(x), old(fifo)), frames)
    {
      ghost var start, before := Boundary(x, fifo), adopted;
      var i := 0;
      while i < frames
        invariant 0 <= i <= frames
        invariant Valid() && Replayed() && active && stage == Framing
        invariant Boundary(x, fifo) == After(start, i)
        invariant adopted == before + Adopted(start, i)
      {
        Frame();
        AdoptedStep(start, i);
        assert adopted == before + (Adopted(start, i) + [Next(After(start, i)).x]);
        i := i + 1;
      }
    }
  }

  datatype Channel = StartChannel | StopChannel

  /** What the control loop reports for one command line. */
  datatype Reply =
    | Sent(channel: Channel)   // a length moved and the channel's new word was sent
    | AutoOn                   // "AUTO_DEMO: ON"
    | UsageHint                // the usage hint; nothing changed

  /** `len_start` and `len_stop` */
  datatype Lens = Lens(start: int, stop: int)

  datatype Outcome = Outcome(after: Lens, reply: Reply)

  /** One manual command: 'w'/'s' step `len_stop` up/down, 'i'/'k' step `len_start`
      up/down, 'a' turns auto mode on; a step past a bound or any other input gets the
      usage hint. */
  function ManualStep(cmd: string, s: Lens): (o: Outcome)
    ensures InRange(s.start) && InRange(s.stop) ==> InRange(o.after.start) && InRange(o.after.stop)
    ensures o.reply == Sent(StopChannel) ==>
      o.after.start == s.start && o.after.stop == s.stop + (if cmd == "w" then 1 else -1)
    ensures o.reply == Sent(StartChannel) ==>
      o.after.stop == s.stop && o.after.start == s.start + (if cmd == "i" then 1 else -1)
    ensures !o.reply.Sent? ==> o.after == s
    ensures o.reply == AutoOn <==> cmd == "a"
    ensures o.reply == UsageHint <==>
      || cmd !in {"w", "s", "i", "k", "a"}
      || (cmd == "w" && s.stop >= MAX_LEN) || (cmd == "s" && s.stop <= 0)
      || (cmd == "i" && s.start >= MAX_LEN) || (cmd == "k" && s.start <= 0)
    ensures o.reply == Sent(StopChannel) <==>
      (cmd == "w" && s.stop < MAX_LEN) || (cmd == "s" && s.stop > 0)
    ensures o.reply == Sent(StartChannel) <==>
      (cmd == "i" && s.start < MAX_LEN) || (cmd == "k" && s.start > 0)
  {
    if cmd == "w" && s.stop < MAX_LEN then Outcome(s.(stop := s.stop + 1), Sent(StopChannel))
    else if cmd == "s" && s.stop > 0 then Outcome(s.(stop := s.stop - 1), Sent(StopChannel))
    else if cmd == "i" && s.start < MAX_LEN then Outcome(s.(start := s.start + 1), Sent(StartChannel))
    else if cmd == "k" && s.start > 0 then Outcome(s.(start := s.start - 1), Sent(StartChannel))
    else if cmd == "a" then Outcome(s, AutoOn)
    else Outcome(s, UsageHint)
  }

  /** One auto tick: both lengths advance by one, wrapping round to 0 after MAX_LEN. */
  function AutoStep(s: Lens): (r: Lens)
    ensures InRange(r.start) && InRange(r.stop)
    ensures InRange(s.start) ==> r.start == if s.start == MAX_LEN then 0 else s.start + 1
    ensures InRange(s.stop) ==> r.stop == if s.stop == MAX_LEN then 0 else s.stop + 1
  {
    Lens(AutoAdvance(s.start, MAX_LEN), AutoAdvance(s.stop, MAX_LEN))
  }

  /** The lengths after `ticks` auto ticks. */
  function AutoSteps(s: Lens, ticks: nat): Lens
  {
    if ticks == 0 then s else AutoStep(AutoSteps(s, ticks - 1))
  }

  /** Auto ticks act on the two lengths independently. */
  lemma {:induction false} AutoStepsApart(s: Lens, ticks: nat)
    ensures AutoSteps(s, ticks)
      == Lens(AutoAdvanced(s.start, MAX_LEN, ticks), AutoAdvanced(s.stop, MAX_LEN, ticks))
  {
    if ticks > 0 {
      AutoStepsApart(s, ticks - 1);
    }
  }

  /** After n auto ticks each in-range length has become (length + n) mod (MAX_LEN + 1). */
  lemma AutoStepsWrap(s: Lens, ticks: nat)
    requires InRange(s.start) && InRange(s.stop)
    ensures AutoSteps(s, ticks) == Lens((s.start + ticks) % (MAX_LEN + 1), (s.stop + ticks) % (MAX_LEN + 1))
  {
    AutoStepsApart(s, ticks);
    var start, stop := AutoAdvanced(s.start, MAX_LEN, ticks), AutoAdvanced(s.stop, MAX_LEN, ticks);
    AutoAdvancedWraps(s.start, MAX_LEN, ticks);
    AutoAdvancedWraps(s.stop, MAX_LEN, ticks);
    assert AutoSteps(s, ticks) == Lens(start, stop);
  }

  /** The firmware's module-level state: the two state machines, the SYNC pin, the two
      lengths and the auto flag. `sent` records every word sent, in order, with its channel;
      `looping` is false once Ctrl+C has ended the control loop. */
  class Controller {
    const smStart: Generator
    const smStop: Generator
    var lenStart: int
    var lenStop: int
    var autoDemo: bool
    var sync: bool
    var looping: bool
    ghost var syncWrites: seq<bool>
    ghost var sent: seq<(Channel, Word)>

    ghost predicate Valid()
      reads this, smStart, smStop
    {
      && smStart != smStop
      && smStart.program == HighThenLow && smStop.program == LowThenHigh
      && smStart.Valid() && smStop.Valid()
      && InRange(lenStart) && InRange(lenStop)
    }

    /** Start-up: with SYNC low, queue both first words and activate both state machines;
        both wait on SYNC without pulling; raise SYNC once, which releases both on the same
        edge into their first pull; lower SYNC again. */
    constructor ()
      ensures Valid() && fresh(smStart) && fresh(smStop)
      ensures lenStart == 1 && lenStop == 1 && !autoDemo && looping
      ensures !sync && syncWrites == [false, true, false]
      ensures sent == [(StopChannel, StopWord(1)), (StartChannel, StartWord(1))]
      ensures smStart.active && smStop.active
      ensures smStart.stage == Framing && smStop.stage == Framing
      ensures smStart.x == StartWord(1) && smStop.x == StopWord(1)
      ensures smStart.fifo == [] && smStop.fifo == []
      ensures smStart.slots == [] && smStop.slots == [] && smStart.Replayed() && smStop.Replayed()
    {
      smStart := new Generator(HighThenLow);
      smStop := new Generator(LowThenHigh);
      lenStart, lenStop := 1, 1;
      autoDemo, looping := false, true;
      sync, syncWrites := false, [false];        // sync.value(0)
      sent := [];
      new;
      SendStop();
      SendStart();
      ActivateAndSync();
    }

    /** `sm_stop.active(1); sm_start.active(1)`, then the SYNC pulse. While SYNC is low
        both programs stay at `wait(1, pin, 0)`; raising it once releases both on the same
        edge into their first `pull()`, which takes the word already queued. */
    method ActivateAndSync()
      requires Valid() && !sync
      requires !smStart.active && !smStop.active
      requires smStart.stage == WaitSync && smStop.stage == WaitSync
      requires smStart.fifo != [] && smStop.fifo != []
      modifies this`sync, this`syncWrites, smStart`active, smStart`stage, smStart`x, smStart`osr,
        smStart`fifo, smStop`active, smStop`stage, smStop`x, smStop`osr, smStop`fifo
      ensures Valid() && !sync && syncWrites == old(syncWrites) + [true, false]
      ensures smStart.active && smStop.active
      ensures smStart.stage == Framing && smStop.stage == Framing
      ensures smStart.x == old(smStart.fifo)[0] && smStart.fifo == old(smStart.fifo)[1..]
      ensures smStop.x == old(smStop.fifo)[0] && smStop.fifo == old(smStop.fifo)[1..]
    {
      smStop.SetActive(true);
      smStart.SetActive(true);
      // SYNC is low: both programs keep waiting
      smStop.WaitForSync(sync);
      smStart.WaitForSync(sync);
      sync, syncWrites := true, syncWrites + [true];    // sync.value(1)
      // both see the same rising edge and take their first word
      smStop.WaitForSync(sync);
      smStart.WaitForSync(sync);
      smStop.FirstPull();
      smStart.FirstPull();
      sync, syncWrites := false, syncWrites + [false];  // sync.value(0)
    }

    /** `_send_start` */
    method SendStart()
      requires Valid()
      modifies smStart`fifo, this`sent
      ensures Valid()
      ensures smStart.fifo == old(smStart.fifo) + [StartWord(lenStart)]
      ensures sent == old(sent) + [(StartChannel, StartWord(lenStart))]
    {
      var h := Max(0, Min(MAX_LEN, lenStart));
      var l := MAX_LEN - h;
      smStart.Put(Pack(l, h));
      sent := sent + [(StartChannel, StartWord(lenStart))];
    }

    /** `_send_stop` */
    method SendStop()
      requires Valid()
      modifies smStop`fifo, this`sent
      ensures Valid()
      ensures smStop.fifo == old(smStop.fifo) + [StopWord(lenStop)]
      ensures sent == old(sent) + [(StopChannel, StopWord(lenStop))]
    {
      var lowPrefix := Max(0, Min(MAX_LEN, lenStop));
      var highRest := MAX_LEN - lowPrefix;
      smStop.Put(Pack(lowPrefix, highRest));
      sent := sent + [(StopChannel, StopWord(lenStop))];
    }

    /** One line read in manual mode: `input().strip().lower()`, then the command chain. */
    method Command(line: string) returns (reply: Reply)
      requires Valid() && looping && !autoDemo
      modifies this`lenStart, this`lenStop, this`autoDemo, this`sent, smStart`fifo, smStop`fifo
      ensures Valid()
      ensures Outcome(Lens(lenStart, lenStop), reply) == ManualStep(Normalize(line), old(Lens(lenStart, lenStop)))
      ensures autoDemo == (reply == AutoOn)
      ensures reply == Sent(StopChannel) ==>
        && smStop.fifo == old(smStop.fifo) + [StopWord(lenStop)] && smStart.fifo == old(smStart.fifo)
        && sent == old(sent) + [(StopChannel, StopWord(lenStop))]
      ensures reply == Sent(StartChannel) ==>
        && smStart.fifo == old(smStart.fifo) + [StartWord(lenStart)] && smStop.fifo == old(smStop.fifo)
        && sent == old(sent) + [(StartChannel, StartWord(lenStart))]
      ensures !reply.Sent? ==>
        smStart.fifo == old(smStart.fifo) && smStop.fifo == old(smStop.fifo) && sent == old(sent)
    {
      var cmd := Normalize(line);
      reply := Dispatch(cmd);
    }

    /** The command chain on a normalised line. An accepted step moves one length by one,
        within [0, MAX_LEN], and sends exactly one word, to that channel's state machine
        only; 'a' turns auto mode on; anything else changes nothing and gets the usage hint. */
    method Dispatch(cmd: string) returns (reply: Reply)
      requires Valid() && looping && !autoDemo
      modifies this`lenStart, this`lenStop, this`autoDemo, this`sent, smStart`fifo, smStop`fifo
      ensures Valid()
      ensures Outcome(Lens(lenStart, lenStop), reply) == ManualStep(cmd, old(Lens(lenStart, lenStop)))
      ensures autoDemo == (reply == AutoOn)
      ensures reply == Sent(StopChannel) ==>
        && smStop.fifo == old(smStop.fifo) + [StopWord(lenStop)] && smStart.fifo == old(smStart.fifo)
        && sent == old(sent) + [(StopChannel, StopWord(lenStop))]
      ensures reply == Sent(StartChannel) ==>
        && smStart.fifo == old(smStart.fifo) + [StartWord(lenStart)] && smStop.fifo == old(smStop.fifo)
        && sent == old(sent) + [(StartChannel, StartWord(lenStart))]
      ensures !reply.Sent? ==>
        smStart.fifo == old(smStart.fifo) && smStop.fifo == old(smStop.fifo) && sent == old(sent)
    {
      if cmd == "w" && lenStop < MAX_LEN {
        StepStop(1);                            // len_stop += 1; _send_stop()
        reply := Sent(StopChannel);
      } else if cmd == "s" && lenStop > 0 {
        StepStop(-1);                           // len_stop -= 1; _send_stop()
        reply := Sent(StopChannel);
      } else {
        reply := DispatchRest(cmd);
      }
    }

    /** The rest of the chain, for a line that is not an accepted STOP step: 'i'/'k' step
        START, 'a' turns auto mode on, anything else gets the usage hint. */
    method DispatchRest(cmd: string) returns (reply: Reply)
      requires Valid() && looping && !autoDemo
      requires !(cmd == "w" && lenStop < MAX_LEN) && !(cmd == "s" && lenStop > 0)
      modifies this`lenStart, this`autoDemo, this`sent, smStart`fifo
      ensures Valid()
      ensures Outcome(Lens(lenStart, lenStop), reply) == ManualStep(cmd, old(Lens(lenStart, lenStop)))
      ensures autoDemo == (reply == AutoOn)
      ensures reply != Sent(StopChannel)
      ensures reply == Sent(StartChannel) ==>
        && smStart.fifo == old(smStart.fifo) + [StartWord(lenStart)]
        && sent == old(sent) + [(StartChannel, StartWord(lenStart))]
      ensures !reply.Sent? ==> smStart.fifo == old(smStart.fifo) && sent == old(sent)
    {
      if cmd == "i" && lenStart < MAX_LEN {
        StepStart(1);                           // len_start += 1; _send_start()
        reply := Sent(StartChannel);
      } else if cmd == "k" && lenStart > 0 {
        StepStart(-1);                          // len_start -= 1; _send_start()
        reply := Sent(StartChannel);
      } else if cmd == "a" {
        autoDemo := true;
        reply := AutoOn;
      } else {
        reply := UsageHint;
      }
    }

    /** An accepted STOP step: `len_stop` moves by `delta` and its new word is sent to
        STOP's state machine; START is left alone. */
    method StepStop(delta: int)
      requires Valid() && InRange(lenStop + delta)
      modifies this`lenStop, this`sent, smStop`fifo
      ensures Valid() && lenStop == old(lenStop) + delta
      ensures smStop.fifo == old(smStop.fifo) + [StopWord(lenStop)]
      ensures sent == old(sent) + [(StopChannel, StopWord(lenStop))]
    {
      lenStop := lenStop + delta;
      SendStop();
    }

    /** An accepted START step: `len_start` moves by `delta` and its new word is sent to
        START's state machine; STOP is left alone. */
    method StepStart(delta: int)
      requires Valid() && InRange(lenStart + delta)
      modifies this`lenStart, this`sent, smStart`fifo
      ensures Valid() && lenStart == old(lenStart) + delta
      ensures smStart.fifo == old(smStart.fifo) + [StartWord(lenStart)]
      ensures sent == old(sent) + [(StartChannel, StartWord(lenStart))]
    {
      lenStart := lenStart + delta;
      SendStart();
    }

    /** One auto tick (at least 1000 ms since the last): both lengths wrap forward by one,
        then STOP's word is sent, then START's. Input is no longer read, so auto mode
        stays on. */
    method Tick()
      requires Valid() && looping && autoDemo
      modifies this`lenStart, this`lenStop, this`sent, smStart`fifo, smStop`fifo
      ensures Valid()
      ensures Lens(lenStart, lenStop) == AutoStep(old(Lens(lenStart, lenStop)))
      ensures smStop.fifo == old(smStop.fifo) + [StopWord(lenStop)]
      ensures smStart.fifo == old(smStart.fifo) + [StartWord(lenStart)]
      ensures sent == old(sent) + [(StopChannel, StopWord(lenStop)), (StartChannel, StartWord(lenStart))]
    {
      lenStop := AutoAdvance(lenStop, MAX_LEN);      // (len_stop + 1) % (MAX_LEN + 1)
      lenStart := AutoAdvance(lenStart, MAX_LEN);    // (len_start + 1) % (MAX_LEN + 1)
      SendStop();
      SendStart();
    }

    /** Ctrl+C: both state machines are deactivated and the control loop ends; the FIFOs,
        registers and pins keep their contents. */
    method Abort()
      requires Valid() && looping
      modifies this`looping, smStart`active, smStop`active
      ensures Valid() && !looping && !smStart.active && !smStop.active
    {
      smStop.SetActive(false);
      smStart.SetActive(false);
      looping := false;
    }
  }
}
