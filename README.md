# BBC Micro keyboard to USB HID: a verified model

`code.py` is a CircuitPython program for a Raspberry Pi Pico. It reads the
key matrix of a BBC Micro keyboard and presents it to a host as a USB HID
keyboard. Each tick of the main loop does four things, in order:

1. blink the board LED;
2. scan the matrix, either through the keyboard's own hardware scan (an
   interrupt line and an absence counter) or straight through the software
   sweep of all 16 columns × 8 rows;
3. poll the separate break button;
4. run the debounce engine's expiry check.

Every closed cell is looked up in a static key table. The key specification
found there goes to the debounce engine. The engine presses a key on the
HID sink the moment it is first observed. It releases the key once the key
has stayed in its queue for a dwell time, which depends on the most recent
release and on whether the hardware scan has reported no input. It does so
through its absence callback after more than 100 consecutive ticks without
the interrupt (code.py:317-321), and never when the software scan runs on
its own.

The Dafny project has six modules.

- `Keys` (`keys.dfy`) holds the keycodes, the key specifications (`Fixed`
  or `AltShift` over `Plain` and `Shifted` keys), the key table and the
  resolution of an `AltShift` against the live shift flag.
- `Hid` (`hid.dfy`) is the HID sink. It is a class with an event log and
  the `shift_down` flag, and it is proved to keep the flag equal to what
  the log implies.
- `Binary` (`binary.dfy`) holds `int_to_bin` with its decoder and the
  tables of select codes.
- `Debounce` (`debounce.dfy`) is the debounce engine. Its behaviour is
  given as pure functions on an abstract `Engine` value (`InputStep`,
  `NoInputStep`, `CheckStep`, the pass `Pass`). The class `DebounceInput`
  updates its fields in place, and each of its methods is proved to follow
  those functions.
- `Scan` (`scan.dfy`) holds the two scanners. Pins are modelled as a trace
  of writes (`PinBus`). The sense and interrupt lines are inputs. The
  sweep's effect on the engine, the trace it writes, the cells it visits
  and the absence counter are all specified.
- `Controller` (`controller.dfy`) holds the blink LED, the break button and
  the keyboard interface, whose `Check` is one tick.

Time is an exact `real` parameter `now`, one value per tick. The sense line
is a predicate `pressed(row, column)`. The source keeps `bbc_keyboard` (the
sink), `input_processor` (the engine) and `break_button` as module globals.
In the model they are objects owned by `KeyboardInterface` and passed to
the parts that use them.

A few behaviours of the code are easy to misread; the model follows the
code:

- A key expires when its observation time plus its dwell lies strictly
  before `now` (code.py:213).
- Shift + BACKSPACE only prints a diagnostic. The key still goes through
  the normal queue and key-down path (code.py:192-198).
- In the tripped branch the hardware scan drives the clock low once more
  before the sweep (code.py:313).
- `HardwareScan.__init__` assigns `kb_en.value`. That is an attribute of
  the pin wrapper, not the pin, so it writes no pin (code.py:308). The
  interface's constructor raises the enable line itself when the hardware
  scan is in use (code.py:476-478).
- `BlinkLed.try_toggle` clears its count inside the loop over its LEDs
  (code.py:458-460). With one LED this is a modulo-1000 counter. With no
  LED the count would never be cleared, and `BlinkStep` keeps that case.
- `check` deletes from the queue while it iterates over it
  (code.py:206-216). This is modelled as one pass over the entries queued
  when the pass begins, in insertion order. An entry released earlier in
  the pass becomes `recent_release` for the entries after it.

## Model

| member | source | states |
|---|---|---|
| Keys.Branches | code.py:28-36 | lists the keys a specification holds, primary first and then the alternate of an `AltShift` (its ensures restate the definition case by case; `Resolve` and `AltShiftBranchesAreNotShift` use it) |
| Keys.Lookup | code.py:39-116 | the table has entries only in rows 0..7 and columns 0..9; any other coordinate is the caught lookup error (None) |
| Keys.Forwarded | code.py:367-376 | `process` forwards a cell exactly when the table has an entry there and the entry is truthy, and forwards that entry (its ensures restate the definition; `ForwardedIsLookup` is its lemma) |
| Keys.Truthy | code.py:375 | defines `if keycode:`: a plain keycode 0 is falsy, a `Shifted` or `AltShift` object is truthy (no contract; `ForwardedIsLookup` shows every table entry passes) |
| Keys.Resolve | code.py:184-191 | an `AltShift` resolves to its alternate key with a shift escape exactly when shift is down, otherwise to its primary key without escape; a fixed key passes through without escape (its ensures nearly restate the definition; `EscapeIsTransparent` and `InputOfNewKey` are its lemmas) |
| Keys.ForwardedIsLookup | code.py:39-116 | every table entry is truthy, so `process` forwards exactly the mapped cells |
| Keys.ExampleCells | code.py:39-116 | row 3, column 7 forwards P; the unmapped cell (0, 5) forwards nothing |
| Keys.AltShiftBranchesAreNotShift | code.py:54-97 | no branch of an `AltShift` entry is the SHIFT key |
| Keys.SitesOfShifted | code.py:39-116 | each `Shifted` key in the table sits at one known cell and branch |
| Keys.ShiftedKeysAreUnique | code.py:19-26 | two table positions holding equal `Shifted` keys are the same position, so comparing `Shifted` objects by identity or by value agrees |
| Hid.ShiftAfterConcat | code.py:153-159 | the shift flag after two runs of events is the flag after their concatenation |
| Hid.ShiftAfter | code.py:153-159 | defines the sink's flag after a run of events: the last press or release of SHIFT decides it (no contract; `ShiftAfterConcat`, `DownEventsShift` and `UpEventsShift` are its lemmas) |
| Hid.DownEvents | code.py:221-232 | key_down presses the code; with an escape the press is wrapped in release SHIFT … press SHIFT |
| Hid.UpEvents | code.py:234-240 | key_up only releases, ends with the key's code, and for a `Shifted` key releases SHIFT first |
| Hid.DownEventsShift | code.py:221-232 | after key_down shift is down if escaped, up for an unescaped `Shifted` key, otherwise changed only by SHIFT itself |
| Hid.UpEventsShift | code.py:234-240 | after key_up shift is up if the key involved SHIFT, otherwise unchanged |
| Hid.HidKeyboard.constructor | code.py:143-146 | the sink starts with shift up and nothing sent |
| Hid.HidKeyboard.KeyPress | code.py:148-154 | a press is logged and sets the flag exactly for SHIFT; the flag stays what the log implies |
| Hid.HidKeyboard.KeyRelease | code.py:156-159 | a release is logged and clears the flag exactly for SHIFT; the flag stays what the log implies |
| Binary.IntToBin | code.py:119-124 | the encoding is `width` long, or as long as the digits of v when they are longer: it is never truncated |
| Binary.IntToBinPads | code.py:119-124 | the encoding ends with the binary digits of v and every bit before them is zero, so the padding is on the left |
| Binary.IntToBinRoundTrip | code.py:119-124 | for 0 <= v < 2^width the encoding has exactly `width` bits and reads back as v, most significant bit first |
| Binary.IntToBinOverflow | code.py:119-124 | a value of 2^width or more takes more than `width` bits |
| Binary.Options | code.py:349-350 | the code table has 2^width entries and entry i encodes i (its ensures restate the definition; `OptionsAreDistinctCodes`, `RowCode` and `ColumnCode` are its lemmas) |
| Binary.OptionsAreDistinctCodes | code.py:349-350 | the select codes are `width` bits each and pairwise distinct |
| Debounce.Dwell | code.py:206-212 | the dwell is the short delay for the recent release; for any other key it is half the delay after a no-input report, else the delay (its ensures restate the definition case by case; `PassEntry`, `HalfDelayAfterAbsence`, `FullDelayWithInput` and `ShortDelayForRecent` are its lemmas) |
| Debounce.Expires | code.py:213 | defines expiry: time plus dwell strictly before `now` (no contract; `PassEntry` is its lemma) |
| Debounce.InputStep | code.py:182-198 | defines `input`: resolve against the live shift flag, send the down events and queue a key not yet queued, always clear the no-input flag (no contract; `InputWhilePending`, `InputOfNewKey`, `InputKeepsDistinct` and `InputGrows` are its lemmas) |
| Debounce.NoInputStep | code.py:218-219 | defines `no_input`: the no-input flag is set and nothing else changes (no contract) |
| Debounce.Pass | code.py:205-216 | defines one pass of `check` over the queue in order, each entry judged against `recent_release` as earlier entries left it (no contract; `PassShape`, `PassEntry`, `ShortDelayAt` and `PassDistinct` are its lemmas) |
| Debounce.UpAll | code.py:214 | defines the events of releasing keys one after another (no contract; `UpAllConcat` is its lemma) |
| Debounce.CheckStep | code.py:200-216 | defines `check`: the pass, then the release events of the released keys in order (no contract; `CheckKeepsDistinct`, `CheckOfOne` and the dwell lemmas are about it) |
| Debounce.InputGrows | code.py:196-198 | input appends at most one entry, observed at `now`, and keeps one entry per key |
| Debounce.InputWhilePending | code.py:196-198 | an input of a key already queued sends nothing, keeps its time and clears the no-input flag |
| Debounce.InputOfNewKey | code.py:182-198 | an input of a key not queued sends its down events and queues it last at `now` |
| Debounce.InputKeepsDistinct | code.py:196-198 | input keeps at most one queue entry per key |
| Debounce.SecondInputChangesNothing | code.py:196-198 | a second input of a key that resolves the same way changes nothing |
| Debounce.PassShape | code.py:205-216 | every entry is kept or released, nothing else; `recent_release` ends as the last key released |
| Debounce.PassEntry | code.py:206-216 | entry i is released, and not kept, exactly when time plus dwell is strictly before `now`, judged against `recent_release` as earlier entries left it; otherwise it is kept unchanged |
| Debounce.ShortDelayAt | code.py:211-215 | an entry gets the short delay exactly when it was the recent release before the pass and no earlier entry of the pass was released |
| Debounce.PassDistinct | code.py:205-216 | the pass keeps one entry per key and releases each key at most once |
| Debounce.PassBounds | code.py:206-213 | an entry older than both delays is released, and one younger than half the delay and the short delay is kept, whatever the flags |
| Debounce.CheckKeepsDistinct | code.py:200-216 | check keeps at most one queue entry per key |
| Debounce.OnePressOneRelease | code.py:182-240 | on an idle engine (empty queue, no recent release), for a fixed key: one input at t sends the down events; a check after t + delay sends the up events once and records the key as recent; an earlier check changes nothing |
| Debounce.CheckOfOne | code.py:200-216 | check over a single entry releases it exactly when it expires, and otherwise changes nothing |
| Debounce.ShortDelayReuse | code.py:211-212 | an instance: with delays 0.15 and 0.09, a key seen again at 0.05 right after its own release is up by 0.145, and would still be down by the delay alone |
| Debounce.AbsenceHalvesDwell | code.py:207-208 | an instance: with delay 0.15, a lone key observed at 0 is up by 0.08 after a no-input report and still down without one |
| Debounce.HalfDelayAfterAbsence | code.py:207-213 | after a no-input report, an entry that is not the recent release when the pass reaches it stays queued exactly while `now` is at most its time plus half the delay |
| Debounce.FullDelayWithInput | code.py:207-213 | with no no-input report, such an entry stays queued exactly while `now` is at most its time plus the delay |
| Debounce.ShortDelayForRecent | code.py:211-213 | the entry of the key released most recently, reached before anything else in the pass is released, stays queued exactly while `now` is at most its time plus the short delay |
| Debounce.EscapeIsTransparent | code.py:186-232 | the AltShift(SIX, Shifted(SEVEN)) key with shift held sends release SHIFT, press SHIFT, press SEVEN, release SHIFT, press SHIFT, and leaves shift down |
| Debounce.DebounceInput.constructor | code.py:174-180 | empty queue, no recent release, no-input flag clear, delays 0.15 and 0.09 by default |
| Debounce.DebounceInput.Input | code.py:182-198 | the new engine state is `InputStep` of the old one |
| Debounce.DebounceInput.NoInput | code.py:218-219 | the new engine state is `NoInputStep` of the old one |
| Debounce.DebounceInput.Check | code.py:200-216 | the new engine state is `CheckStep` of the old one, by a loop over the queue's snapshot |
| Debounce.DebounceInput.Visit | code.py:207-216 | one entry: if it expires it is released, becomes recent and leaves the queue; else nothing changes |
| Debounce.DebounceInput.KeyDown | code.py:221-232 | the sink receives exactly `DownEvents` and its flag follows them |
| Debounce.DebounceInput.KeyUp | code.py:234-240 | the sink receives exactly `UpEvents` and its flag follows them |
| Debounce.CheckLoopStep | code.py:206-216 | visiting entry i extends the pass by that entry, judged against the current `recent_release` |
| Debounce.CheckLoopQueue | code.py:214-216 | deleting the visited key from the queue leaves the kept entries plus the rest of the snapshot, and its release events extend the log |
| Debounce.RemoveKey | code.py:216 | deleting a key keeps exactly the entries of the queue with a different key, and no others |
| Scan.AddressSpace | code.py:341-342 | 2^3 = 8 rows and 2^4 = 16 columns |
| Scan.Zip | code.py:352-354 | pairs each pin with its level, position by position, up to the shorter length |
| Scan.PinBus.Set | code.py:406 | one write is appended to the trace |
| Scan.PinBus.SetAll | code.py:405-406 | the writes of zip(pins, levels) are appended in order |
| Scan.SoftwareScan.constructor | code.py:344-350 | the row and column codes are `int_to_bin` of every address |
| Scan.SoftwareScan.NoInput | code.py:364-365 | the engine takes `NoInputStep` |
| Scan.SoftwareScan.Process | code.py:367-376 | the engine takes an input of the forwarded entry, or is unchanged for an unmapped cell |
| Scan.ProcessStep | code.py:367-376 | defines `process` on the engine: an input of the forwarded entry, or nothing (no contract; `ProcessTwiceIsOnce` and `ProcessGrows` are its lemmas) |
| Scan.ProcessGrows | code.py:367-376 | `process` appends at most one entry, observed at `now`, and keeps one entry per key |
| Scan.SoftwareScan.CheckShift | code.py:378-395 | returns the sense line at cell (0, 0) and writes enable low, zero codes, one pulse, enable high |
| Scan.SoftwareScan.Check | code.py:397-420 | writes `SweepTrace` and leaves the engine at `SweepEffect` of its old state |
| Scan.SweepEffect | code.py:397-420 | defines the sweep's effect on the engine as a fold over columns and rows (no contract; `SweepProcessesHits` is its lemma) |
| Scan.SweepTrace | code.py:397-420 | defines the sweep's pin writes: enable low, every column code and row code with a pulse, enable high (no contract; `SweepShape`, `RowCode` and `ColumnCode` are its lemmas) |
| Scan.ShiftProbeTrace | code.py:384-394 | defines the shift probe's pin writes (no contract; `ShiftProbeAddressesShift` is its lemma) |
| Scan.SoftwareScan.ScanColumn | code.py:403-418 | one column: its code, then every row, processing the pressed cells |
| Scan.SoftwareScan.ScanCell | code.py:407-418 | one cell: row code, clock low and high, then `process` if the sense line reads true |
| Scan.HardwareScan.constructor | code.py:307-309 | the count starts at 0 and no pin is written |
| Scan.HardwareScan.Check | code.py:311-324 | the count follows `AbsenceStep`, the engine follows its action (sweep, no-input or nothing), and the tick ends with clock low then high |
| Scan.AbsenceStep | code.py:311-321 | defines the counter rule: a trip triggers and clears; otherwise count up, and past 100 report no input and clear (no contract; `AbsenceStepBounds` and `AbsenceCycle` are its lemmas) |
| Scan.HardwareTrace | code.py:311-324 | defines the hardware scan's pin writes: on a trip a clock low and a sweep, then always clock low and high (no contract) |
| Scan.RowsGrows | code.py:407-418 | the rows of one column only append entries observed at `now`, one per key |
| Scan.ColumnsGrows | code.py:403-418 | the columns of a sweep only append entries observed at `now`, one per key |
| Scan.ActionEffect | code.py:313-321 | defines the hardware scan's callback dispatch on the engine: the sweep (`ss.check`) on a trip, `ss.no_input` on absence, nothing otherwise (no contract; `ActionGrows` is its lemma) |
| Scan.ActionGrows | code.py:311-321 | whatever the hardware scan does, it only appends entries observed at `now`, one per key |
| Scan.RowsProcessHits | code.py:407-418 | the rows of a column process the closed cells of that column in row order |
| Scan.ColumnsProcessHits | code.py:403-418 | the first n columns process the closed cells in visit order |
| Scan.SweepProcessesHits | code.py:401-420 | a sweep calls `process` exactly for the cells whose sense line reads true, in visit order |
| Scan.VisitsIndex | code.py:403-418 | position i of the sweep is row i mod 8 of column i div 8 |
| Scan.SweepCoversMatrix | code.py:403-418 | the sweep visits all 8 × 16 cells, column-outer and row-inner |
| Scan.SweepVisitsOnce | code.py:403-418 | the sweep visits no cell twice |
| Scan.ShiftProbeAddressesShift | code.py:378-395 | the shift probe drives the codes of row 0 and column 0, which hold SHIFT, and pulses the clock once |
| Scan.RowsShape | code.py:407-414 | the rows of a column pulse the clock once per row and never touch the enable line |
| Scan.ColumnsShape | code.py:403-414 | n columns pulse the clock 8n times and never touch the enable line |
| Scan.SweepShape | code.py:401-420 | a sweep pulses the clock 128 times; enable is written low first, high last and nowhere between |
| Scan.RowCode | code.py:409-410 | row r is selected by r in binary on the three row lines, first pin most significant |
| Scan.ColumnCode | code.py:405-406 | column c is selected by c in binary on the four column lines, first pin most significant |
| Scan.HitsMembership | code.py:417-418 | a cell is processed exactly when it is visited and its sense line reads true |
| Scan.OneHit | code.py:403-418 | a sense line closed at only one cell gives exactly that cell |
| Scan.SinglePressSweep | code.py:397-420 | a sweep with only the P cell closed is one input of P |
| Scan.ProcessTwiceIsOnce | code.py:367-376 | processing a held cell again changes nothing |
| Scan.AbsenceStepBounds | code.py:311-321 | the count stays in 0..100; the absence callback fires exactly on a quiet tick at count 100; a tripped tick always triggers |
| Scan.AbsenceCycle | code.py:317-321 | from a cleared count, after n quiet ticks the count is n mod 101, and no-input is reported exactly on every 101st tick |
| Controller.BlinkCycle | code.py:455-460 | with one or more LEDs the count is the tick count mod 1000, and the LEDs are on exactly after an odd number of whole paces |
| Controller.BlinkStep | code.py:455-460 | defines `try_toggle`: count up; on reaching the pace toggle every LED and clear the count inside the LED loop (no contract; `BlinkCycle` is its lemma) |
| Controller.BlinkLed.constructor | code.py:449-453 | pace 1000, count 0, the LED off |
| Controller.BlinkLed.TryToggle | code.py:455-460 | the count and the LEDs follow `BlinkStep` |
| Controller.BreakButtonProcessor.constructor | code.py:257-260 | the button's label is BACKSPACE and it feeds the shared engine |
| Controller.BreakButtonProcessor.Check | code.py:262-266 | while the line is low, probes shift and inputs BACKSPACE; while high, does nothing |
| Controller.BreakIsBackspace | code.py:262-266 | a held break button presses BACKSPACE and queues it when BACKSPACE is not already queued, and otherwise only clears the no-input flag; a high line leaves the engine unchanged |
| Controller.BreakStep | code.py:262-266 | defines the break button's effect on the engine: an input of BACKSPACE while the line is low (no contract; `BreakIsBackspace` is its lemma) |
| Controller.ObservedKeyOutlivesACheck | code.py:182-216 | a key first observed at t is still queued after an expiry check at a time within both half the delay and the short delay of t |
| Controller.TickInputsGrow | code.py:489-494 | the scan and the break button of a tick keep the queue's entries in front and only append entries observed at the tick's time, one per key |
| Controller.TickKeepsItsInputs | code.py:489-495 | every entry a tick's scan or break button adds is still queued, so still held down, after that tick's expiry check |
| Controller.KeyboardInterface.constructor | code.py:466-481 | the parts start cleared; with the hardware scan the enable line is raised |
| Controller.KeyboardInterface.Check | code.py:483-495 | one tick: blink, then scan, then break button, then expiry check; pins and engine follow `TickTrace` and `TickEngine` |
| Controller.TickInputs | code.py:489-494 | defines the engine after the scan and the break button of a tick (no contract; `TickInputsGrow` is its lemma) |
| Controller.TickEngine | code.py:483-495 | defines the engine after a whole tick: the tick's inputs, then the expiry check (no contract; `TickKeepsItsInputs` is its lemma) |
| Controller.TickTrace | code.py:483-495 | defines a tick's pin writes: the scan's, then the shift probe while the break line is low (no contract) |

## Left out

- USB HID transport, keyboard layout and the string `write` path of `key_press` (code.py:144-150): foreign libraries, replaced by an event log.
- `HIDKeyboard.align_leds` (code.py:161-162): it reads the host's caps lock state through USB, which is not modelled.
- The `LED` class and `LED.set_off` (code.py:423-438, 481): they drive four GPIO outputs (the internal LED, caps lock, shift lock and cassette motor), whose pins are not modelled. Only the blink LED's level is kept, and it starts off, which agrees with `LED.set_off()` turning the internal LED off at code.py:481.
- `Output.reverse` (code.py:274-292): it concerns only the case LEDs, which are not modelled.
- The `adafruit_debouncer.Debouncer` of the break button and its `update()` (code.py:259, 263): an external library whose result the code does not use.
- `megahertz_clock`, `loop` and the `__main__` entry (code.py:127-136, 497-509): a wall-clock busy-wait that only calls `check` repeatedly.
- `time.monotonic` and float arithmetic: time is an exact `real` parameter, the same for every read within one tick.
- `print` diagnostics (code.py:194, 374).
- The unused `short_queue` field (code.py:176).
- Deleting from the queue while iterating over it (code.py:206-216): CPython raises RuntimeError after the first deletion. The model assumes a runtime that carries on, visiting every entry queued when the loop began, once each and in insertion order; that CircuitPython's dict iterates in insertion order is itself an assumption about the runtime. It does not model the runtime error.
- Digital input wrappers (`Input`, code.py:246-253): the sense, interrupt and break lines are parameters.
- Keys.Lookup: the table is written as a function over rows rather than a dictionary; lookups outside it give None, as the caught lookup error does.
- Hid.HidKeyboard.KeyPress: takes a keycode only; a string value goes through the keyboard layout, which is not modelled.
- Binary.IntToBin: takes a non-negative value; the source is only called with addresses 0..15.
- Debounce.DebounceInput.Input: the `shift` argument only chooses whether a diagnostic is printed, so it has no effect in the model.
- Scan.HardwareScan.Check: the two callbacks are fixed to the software scan's `check` and `no_input`, the only ones the source passes (code.py:491).
