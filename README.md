# Pico window generator firmware, in Dafny

This is a model of the MicroPython firmware for a Raspberry Pi Pico that generates
"window" signals with the RP2040's PIO state machines. The model also proves
properties of it. The firmware comes in two variants:

- `main.py` has two synchronised channels, each on its own state machine, released
  together by a rising edge on the SYNC pin. For a clamped length h in `[0, MAX_LEN]`
  a START frame is HIGH for h + 1 slots and then LOW for `MAX_LEN` - h + 1 slots.
  A count of 0 skips its phase: h = 0 gives no HIGH slot at all, h = `MAX_LEN` no LOW
  slot. STOP is the mirror image: LOW for `len_stop` + 1 slots, then HIGH for the
  rest plus one, with the same skipping at 0 and `MAX_LEN`.
- `mainz.py` has one channel. START is a GPIO held HIGH. STOP runs on a single state
  machine and is HIGH for `length` + 1 slots, then LOW for `MAX_LEN` - `length` + 1
  slots. There is no skipping: length 0 still gives one HIGH slot.

In both variants a control loop steps the lengths. In manual mode it takes one console
command per line. In auto mode it wraps them forward once a second. For every change it
packs the new length and its complement into one 32-bit frame word and puts that word
into the channel's TX FIFO. At each frame boundary the PIO program adopts the next
queued word if there is one, splits it into the two phase counts, and drives the pin
through both phases.

Modules:

- `FrameWord` (frame_word.dfy): the 32-bit word, the clamp, and packing and unpacking
  of the two 16-bit fields.
- `Pio` (pio.dfy): the PIO instructions the programs use.
  - the `jmp(x_dec)` count loop;
  - `out(…, 16)` under right shift;
  - `pull(noblock)`;
  - the frame-boundary discipline shared by all three programs, and what it means for
    the sequence of words the frames run on.
- `Console` (console.dfy): `input().strip().lower()`.
- `Lengths` (lengths.dfy): the wrap-around auto step.
- `TwoChannel` (two_channel.dfy): `main.py`. It has:
  - the two send functions;
  - the two programs as a `Generator` class (registers, FIFO, pin, SYNC wait);
  - the control loop as a `Controller` class (start-up sequence, commands, auto tick,
    interrupt).
- `OneChannel` (one_channel.dfy): `mainz.py`, in the same shape.

### How the hardware is represented

- **Words and registers.** Each 32-bit word and each PIO register is an integer in
  `[0, 2^32)`. The bit operations of the firmware are written arithmetically:
  - `& 0xFFFF` is `% 0x10000`;
  - `>> 16` is `/ 0x10000`;
  - `<< 16` is `* 0x10000`;
  - the OR of two fields in disjoint bits is their sum.

  Python's `&` on a negative integer also keeps the low 16 bits of its two's
  complement, which is what `% 0x10000` gives.
- **Slots.** A *slot* is one iteration of a PIO count loop. The model records the pin
  level of every slot driven so far (`slots`). It does not record cycles.
- **`jmp(x_dec)` and `jmp(y_dec)`.** These test the register before decrementing it, so
  a loop entered with count n runs n + 1 times (section 3.4.2 of the RP2040
  datasheet). The decrement is also taken on the last test, where it wraps 0 to
  `0xFFFFFFFF`. This cannot be observed, because Y and X are reloaded in every frame.
- **`pull(noblock)`.** On an empty FIFO it copies X into OSR (section 3.4.7 of the
  RP2040 datasheet).

### Facts about the code worth stating up front

- **The word channel is the hardware TX FIFO.** A word put while the previous one is
  still queued does not replace it. Queued words are adopted one per frame, in order,
  and only the last one then persists (`Pio.AdoptedInFifoOrder`).
- **Frame length is not constant in `main.py`.**
  - The guarded loops give `MAX_LEN + 2` slots when both counts are non-zero. When one
    count is 0 that phase is skipped, and the frame has `MAX_LEN + 1` slots
    (`TwoChannel.ChannelFrame`).
  - `mainz.py` has no guards. Every frame has `MAX_LEN + 2` slots, and length 0 still
    drives one HIGH slot (`OneChannel.PackedFrame`).

## Model

| member | source | states |
|---|---|---|
| FrameWord.Clamp | main.py:122 | `max(0, min(MAX_LEN, len))` lies in `[0, MAX_LEN]`. It is the identity inside the range, 0 below it and `MAX_LEN` above it. |
| FrameWord.Mask16 | main.py:124 | `v & 0xFFFF` is below 2^16, is the identity on 16-bit values, and keeps `v`'s residue mod 2^16. |
| FrameWord.Pack | main.py:124 | `((hi & 0xFFFF) << 16) \| (lo & 0xFFFF)` unpacks to exactly the two masked fields. |
| FrameWord.Unpack | main.py:36-42 | The high and low halves are 16-bit values that recompose to the word. |
| FrameWord.PackUnpack | main.py:124 | Packing the two halves of any word rebuilds that word. |
| Pio.Dec | main.py:48 | `jmp(y_dec)` decrements a non-zero register by one and wraps 0 to all ones. |
| Pio.CountLoop | main.py:46-48 | A `jmp(r_dec)` loop entered with n drives its level for exactly n + 1 slots and leaves the register at all ones. |
| Pio.Out16 | main.py:36-42 | `out(dest, 16)` under right shift sends the low 16 bits to the destination and leaves the high 16 in OSR. Both parts are 16-bit values and recompose to the old OSR, so nothing is lost. |
| Pio.PullNoBlock | main.py:29 | `pull(noblock)` on a non-empty FIFO moves its head into OSR, and head plus remaining FIFO is the old FIFO. On an empty FIFO, OSR gets X and the FIFO stays empty. |
| Pio.Next | main.py:28-30 | At a frame boundary the FIFO head is adopted and popped. With the FIFO empty, X and the FIFO are unchanged. |
| Pio.AfterFrames | main.py:28-30 | After k frames the FIFO has lost its first min(k, \|fifo\|) words, and X holds the word of frame k. |
| Pio.AdoptedStep | main.py:28-30 | One more frame advances the boundary by `Next` and runs on the word that `Next` adopts. |
| Pio.AdoptedInFifoOrder | main.py:28-58 | Frame k runs on the k-th queued word while the queue lasts, and then on the last word forever. The FIFO is a queue, not a latest-wins mailbox. |
| Console.IsSpace | main.py:170 | MicroPython's `strip()` white space is exactly the space and the ASCII controls tab through carriage return (`\t \n \v \f \r`). Nothing beyond ASCII counts. |
| Console.TrimLeft | main.py:170 | Leading MicroPython white space is removed. The result is a suffix, everything dropped is white space, and the result starts with a non-space. |
| Console.TrimRight | main.py:170 | Trailing MicroPython white space is removed. The result is a prefix, everything dropped is white space, and the result ends with a non-space. |
| Console.Strip | main.py:170 | `strip()` gives the empty string exactly for an all-white-space line, and otherwise a string that starts and ends with a non-space. |
| Console.TrimmedSlice | main.py:170 | Trimming both ends leaves the slice of the line that starts at its first non-space, with only white space on either side of it. |
| Console.LowerChar | main.py:170 | MicroPython's ASCII-only `lower()`: `A`–`Z` map to the same letter in lower case, every other character is unchanged, and no result is an upper-case ASCII letter. |
| Console.Lower | main.py:170 | Lower-casing keeps the length and maps each character through `LowerChar`. |
| Console.Normalize | main.py:170 | `input().strip().lower()` is no longer than the line, is empty exactly for a blank line, and holds no upper-case ASCII letter. |
| Console.TrimLeftStops | main.py:170 | Left trimming stops exactly at the first non-space character. |
| Console.TrimLeftPadded | main.py:170 | Left trimming of white space + a non-space character + anything stops at that character. |
| Console.TrimRightPadded | main.py:170 | Right trimming of a non-space character + white space stops at that character. |
| Console.StripPadded | main.py:170 | Stripping white space + one non-space character + white space leaves just that character. |
| Console.NormalizePadded | main.py:170 | A command letter typed in either case with white space around it is read as its lower-case letter. |
| Console.NormalizeSingle | main.py:170 | Conversely, a line read as a one-letter command is that letter in some case, with only white space around it. |
| Lengths.AutoAdvance | main.py:164 | `(len + 1) % (MAX_LEN + 1)` stays in `[0, MAX_LEN]`. It adds one below `MAX_LEN` and wraps `MAX_LEN` to 0. |
| Lengths.AutoAdvancedWraps | mainz.py:95 | After n auto ticks an in-range length has become `(length + n) % (MAX_LEN + 1)`. |
| TwoChannel.StartWord | main.py:121-124 | `_send_start` puts the clamped `len_start` in the low half, and the two halves sum to `MAX_LEN`. |
| TwoChannel.StopWord | main.py:129-132 | `_send_stop` puts the clamped `len_stop` in the high half, and the two halves sum to `MAX_LEN`. |
| TwoChannel.Decode | main.py:35-42 | START loads Y = low half and X = high half. STOP (main.py:83-90) loads Y = high half and X = low half. |
| TwoChannel.DecodeChannelWord | main.py:121-132 | Each program decodes its own channel's word into Y = the clamped length and X = `MAX_LEN` minus it. The other program would read the same word swapped. |
| TwoChannel.ChannelFrame | main.py:44-56 | The exact slots of a frame for length h (and for STOP, main.py:92-104). A frame has `MAX_LEN + 2` slots when 0 < h < `MAX_LEN` and `MAX_LEN + 1` at either bound. |
| TwoChannel.CountsFrame | main.py:44-56 | The guarded phases for counts h and `MAX_LEN - h`, case by case: both phases inside the range, only one at either bound. |
| TwoChannel.PhaseSlotsLevels | main.py:44-56 | Slot i of a frame is at the first level exactly when i falls in the first phase, which lasts Y + 1 slots unless Y is 0. The second phase lasts X + 1 slots unless X is 0 (main.py:92-104 for STOP). |
| TwoChannel.FrameSlotsShape | main.py:44-56 | A frame lasts at most 2 * (2^16 + 1) slots, the all-zero word drives no slot at all, and a frame with a non-zero first count starts at the first level. |
| TwoChannel.WaveformAppend | main.py:26-59 | The pin history of two runs of frames is the first run's slots followed by the second's. |
| TwoChannel.WaveformBound | main.py:26-59 | n frames drive at most n times the longest frame's slots. |
| TwoChannel.ZeroCountSkipsPhase | main.py:45-52 | The `jmp(not_y)`/`jmp(not_x)` guards mean a zero count never drives its level in that frame. |
| TwoChannel.ManualStep | main.py:171-187 | `w`/`s` move only `len_stop` by ±1 and `i`/`k` only `len_start`, within `[0, MAX_LEN]`. A word goes to STOP exactly for `w` below `MAX_LEN` or `s` above 0, and to START exactly for `i` below `MAX_LEN` or `k` above 0. `a` is the only way to auto mode. The usage hint comes exactly for unknown input or a step past a bound, and then nothing changes. |
| TwoChannel.AutoStep | main.py:164-165 | One auto tick leaves both lengths in `[0, MAX_LEN]`. An in-range length goes up by one, and `MAX_LEN` wraps to 0. |
| TwoChannel.AutoStepsApart | main.py:164-165 | Auto ticks advance the two lengths independently of each other. |
| TwoChannel.AutoStepsWrap | main.py:161-167 | After n ticks both lengths are `(len + n) % (MAX_LEN + 1)`. |
| TwoChannel.Generator.constructor | main.py:111-114 | A new state machine is inactive, at `wait(1, pin, 0)`, with an empty FIFO and its pin low (`set_init=OUT_LOW`). |
| TwoChannel.Generator.Put | main.py:124 | `sm.put` appends the word at the back of the FIFO and changes nothing else. |
| TwoChannel.Generator.SetActive | main.py:142-143 | `sm.active(on)` sets the run flag only. |
| TwoChannel.Generator.WaitForSync | main.py:21 | The program leaves `wait(1, pin, 0)` only when SYNC reads high. Until then it neither pulls nor drives its pin. |
| TwoChannel.Generator.FirstPull | main.py:23-24 | The first `pull()` blocks on an empty FIFO. Otherwise it takes the head into OSR and X and enters the frame loop. |
| TwoChannel.Generator.AdoptWord | main.py:28-33 | `mov/pull(noblock)/mov/mov` moves to the next boundary (`Pio.Next`), with ISR and OSR holding the adopted word. |
| TwoChannel.Generator.LoadCounts | main.py:36-42 | The counts loaded are `Decode` of the adopted word (main.py:84-90 for STOP). |
| TwoChannel.Generator.DrivePhases | main.py:44-56 | The guarded loops append exactly the frame's phase slots and leave the pin at the last level driven. |
| TwoChannel.Generator.Frame | main.py:26-59 | One frame adopts `Next`'s word, appends exactly that word's frame slots, restores X from ISR to the adopted word, and keeps the pin history made of whole frames. |
| TwoChannel.Generator.RunFrames | main.py:26-59 | n frames reach `After(start, n)` and run on `Adopted(start, n)`, the FIFO words in order. |
| TwoChannel.Controller.constructor | main.py:137-148 | Start-up ends with lengths 1/1, manual mode, SYNC written low, high, low, both words sent (STOP first), both machines active and framing on their first words, and no slot driven yet. |
| TwoChannel.Controller.ActivateAndSync | main.py:142-148 | Both machines are activated while SYNC is low and keep waiting. One SYNC pulse releases both into their first pull, and SYNC ends low. |
| TwoChannel.Controller.SendStart | main.py:121-124 | `_send_start` appends `StartWord(len_start)` to START's FIFO only. |
| TwoChannel.Controller.SendStop | main.py:129-132 | `_send_stop` appends `StopWord(len_stop)` to STOP's FIFO only. |
| TwoChannel.Controller.Command | main.py:170-187 | The new lengths and reply are `ManualStep` of the normalised line, and auto mode is on exactly after `a`. An accepted step sends exactly one word, to that channel only. Otherwise neither FIFO changes. |
| TwoChannel.Controller.Dispatch | main.py:171-187 | Dispatch gives the same contract as Command, for an already-normalised command. |
| TwoChannel.Controller.DispatchRest | main.py:177-187 | For input that is not an accepted STOP step, this gives the `ManualStep` outcome. It never sends to STOP, and sends one word to START only on an accepted `i`/`k`. |
| TwoChannel.Controller.StepStop | main.py:171-176 | An accepted STOP step moves `len_stop` by the step and sends its new word to STOP's FIFO only. |
| TwoChannel.Controller.StepStart | main.py:177-182 | An accepted START step moves `len_start` by the step and sends its new word to START's FIFO only. |
| TwoChannel.Controller.Tick | main.py:161-167 | Both lengths take one wrapping step, then STOP's word is sent, then START's. |
| TwoChannel.Controller.Abort | main.py:188-190 | Ctrl+C deactivates both state machines and ends the loop. |
| OneChannel.PackedWord | mainz.py:66-71 | `send_packed` puts the clamped `length` in the low half, and the halves sum to `MAX_LEN`. |
| OneChannel.Decode | mainz.py:36-43 | Y = low half (HIGH count) and X = high half (LOW count). |
| OneChannel.DecodePackedWord | mainz.py:36-43 | Decoding undoes `send_packed`: Y = clamped length and X = `MAX_LEN` minus it. |
| OneChannel.PackedFrame | mainz.py:45-53 | Without guards every frame is h + 1 HIGH slots then `MAX_LEN - h + 1` LOW slots. That is always `MAX_LEN + 2` slots, starting HIGH and ending LOW even at h = 0 or h = `MAX_LEN`. |
| OneChannel.PhaseSlotsLevels | mainz.py:45-53 | A frame is HIGH in exactly its first Y + 1 slots and LOW in the X + 1 after them. |
| OneChannel.FrameSlotsShape | mainz.py:45-53 | Every frame, whatever its word, starts HIGH, ends LOW and lasts the word's two 16-bit halves plus two slots. |
| OneChannel.WaveformAppend | mainz.py:26-57 | The pin history of two runs of frames is the first run's slots followed by the second's. |
| OneChannel.WaveformBounds | mainz.py:26-57 | n frames drive at least 2n slots, since no frame is empty, and at most n times the longest frame. |
| OneChannel.Generator.constructor | mainz.py:18-22 | A new state machine is inactive, at its first `pull()`, with an empty FIFO and its pin low. |
| OneChannel.Generator.Put | mainz.py:71 | `sm.put` appends the word to the FIFO. |
| OneChannel.Generator.SetActive | mainz.py:80 | `sm.active(on)` sets the run flag only. |
| OneChannel.Generator.FirstPull | mainz.py:23-24 | The first `pull()` blocks on an empty FIFO. Otherwise it takes the head into OSR and X. |
| OneChannel.Generator.AdoptWord | mainz.py:28-34 | This reaches the next boundary (`Pio.Next`), with ISR and OSR holding the adopted word. |
| OneChannel.Generator.LoadCounts | mainz.py:36-43 | The counts loaded are `Decode` of the adopted word. |
| OneChannel.Generator.DrivePhases | mainz.py:45-53 | `set(pins,1)` and Y + 1 HIGH slots, then `set(pins,0)` and X + 1 LOW slots, whatever the counts. The pin ends low. |
| OneChannel.Generator.Frame | mainz.py:26-57 | One frame adopts `Next`'s word, appends exactly its frame slots, restores X to the adopted word, and ends with the pin low. |
| OneChannel.Generator.RunFrames | mainz.py:26-57 | n frames run on the FIFO words in order, then on the last word. |
| OneChannel.ManualStep | mainz.py:102-112 | `w`/`s` move `length` by ±1 within `[0, MAX_LEN]`. `a` is the only way to auto mode. The range hint comes exactly for unknown input or a step past a bound, and then nothing changes. |
| OneChannel.Controller.constructor | mainz.py:13-80 | START is driven high, `length` is 0, and the word for 0 is queued before the machine is activated, so its first pull finds it. |
| OneChannel.Controller.SendPacked | mainz.py:66-71 | `send_packed` appends `PackedWord(length)` to the FIFO. |
| OneChannel.Controller.Command | mainz.py:101-112 | The new length and reply are `ManualStep` of the normalised line, and auto mode is on exactly after `a`. An accepted step sends exactly one word. Otherwise the FIFO is unchanged. |
| OneChannel.Controller.Tick | mainz.py:93-96 | `length` takes one wrapping step and its word is sent. |
| OneChannel.Controller.Abort | mainz.py:113-114 | Ctrl+C deactivates the state machine and ends the loop. |

## Left out

- The host side (`pico_serial_driver.py` and its copy under `Skrypty/`) is not part of this model. It covers the tkinter GUI, serial I/O, the reader thread and the `mpremote` upload.
- `machine.Pin` and `rp2.StateMachine` are reduced to booleans, registers and a FIFO sequence. `sm.put` blocking on a full 4-deep TX FIFO is not modelled: the FIFO is unbounded.
- Wall-clock time is left out: `ticks_ms`, `sleep`, `sleep_us`, `FREQ_HZ`, frame rate and slot duration. The one-second auto interval is the `Tick` event, and a slot is a loop iteration, not a number of cycles.
- The two state machines and the CPU run in parallel on the chip. In the model each frame is one atomic step (`Frame`), and the SYNC release is one step in which both machines see the same edge. Deactivation in the middle of a frame is not modelled.
- Console output (`print`, the status bars and hint texts) is left out. Replies are reduced to which message is printed.
- Console input is a string of characters; the UTF-8 decoding MicroPython's `input()` does is left out.
- The host's Restart button sends Ctrl+D (`\x04`, pico_serial_driver.py:75 and 224-228). At the prompt this makes MicroPython's `input()` raise `EOFError`. `except KeyboardInterrupt` (main.py:188, mainz.py:113) does not catch it, so the loop ends with the state machines still active. This exit is not modelled: `Abort` covers Ctrl+C only.
- A `KeyboardInterrupt` raised outside the `try` block (during start-up) is not modelled.
