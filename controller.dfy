/**
 * The top level: the blink LED, the break button, and the keyboard
 * interface whose `check` is one tick of the main loop. The tick blinks,
 * scans (through the hardware scan or straight through the software scan),
 * polls the break button and then runs the debounce engine's expiry check,
 * all at the same time `now`.
 */
module Controller {
  import opened Keys
  import opened Hid
  import opened Debounce
  import opened Scan
  import opened Binary

  /** The number of ticks between toggles of the blink LED. */
  const BlinkPace: int := 1000

  /** Every LED toggled. */
  function Toggled(leds: seq<bool>): (r: seq<bool>)
    ensures |r| == |leds| && forall i :: 0 <= i < |r| ==> r[i] == !leds[i]
  {
    seq(|leds|, i requires 0 <= i < |leds| => !leds[i])
  }

  /**
   * One `try_toggle`: the count goes up; on reaching the pace every LED is
   * toggled, and the count is cleared inside the loop over the LEDs, so
   * with no LED it is never cleared.
   */
  function BlinkStep(increment: int, leds: seq<bool>): (int, seq<bool>)
  {
    if increment + 1 == BlinkPace then (if leds == [] then increment + 1 else 0, Toggled(leds))
    else (increment + 1, leds)
  }

  /** `n` ticks of the blink LED from a cleared count with every LED off. */
  function BlinkRun(leds: nat, n: nat): (int, seq<bool>)
  {
    if n == 0 then (0, seq(leds, _ => false)) else BlinkStep(BlinkRun(leds, n - 1).0, BlinkRun(leds, n - 1).1)
  }

  /**
   * With at least one LED the count is the number of ticks modulo the pace,
   * and every LED is on exactly when an odd number of whole paces has passed:
   * the LEDs change once every 1000 ticks.
   */
  lemma {:induction false} BlinkCycle(leds: nat, n: nat)
    requires leds >= 1
    ensures BlinkRun(leds, n).0 == n % BlinkPace
    ensures BlinkRun(leds, n).1 == seq(leds, _ => (n / BlinkPace) % 2 == 1)
  {
    if n > 0 {
      BlinkCycle(leds, n - 1);
      var prev := BlinkRun(leds, n - 1);
      if (n - 1) % BlinkPace + 1 == BlinkPace {
        assert n % BlinkPace == 0 && n / BlinkPace == (n - 1) / BlinkPace + 1;
        assert prev.1 != [];
      } else {
        assert n % BlinkPace == (n - 1) % BlinkPace + 1 && n / BlinkPace == (n - 1) / BlinkPace;
      }
    }
  }

  /** `BlinkLed`: the LEDs it blinks, as their levels, and the tick count. */
  class BlinkLed {
    const pace: int
    var increment: int
    var leds: seq<bool>

    ghost predicate Valid()
      reads this
    {
      pace == BlinkPace
    }

    /** One LED, the board's own, switched off. */
    constructor ()
      ensures Valid() && increment == 0 && leds == [false]
    {
      pace := BlinkPace;
      increment := 0;
      leds := [false];
    }

    /** `try_toggle()`. */
    method TryToggle()
      requires Valid()
      modifies this
      ensures Valid()
      ensures (increment, leds) == BlinkStep(old(increment), old(leds))
    {
      increment := increment + 1;
      if increment == pace {
        var i := 0;
        while i < |leds|
          invariant 0 <= i <= |leds| == |old(leds)|
          invariant forall j :: 0 <= j < i ==> leds[j] == !old(leds)[j]
          invariant forall j :: i <= j < |leds| ==> leds[j] == old(leds)[j]
          invariant increment == if i == 0 then old(increment) + 1 else 0
        {
          leds := leds[i := !leds[i]];
          increment := 0;
          i := i + 1;
        }
        assert leds == Toggled(old(leds));
      }
    }
  }

  /** The break button forwards this key while its line is held low. */
  const BreakLabel: KeySpec := Fixed(Plain(BACKSPACE))

  /** The break button's effect on the engine: an input of BACKSPACE while its line is low. */
  function BreakStep(e: Engine, lineHigh: bool, now: real): Engine
  {
    if lineHigh then e else InputStep(e, BreakLabel, now)
  }

  /**
   * `BreakButtonProcessor`: a button on its own line, tied back into the
   * engine. The line is pulled up, so a press reads low.
   */
  class BreakButtonProcessor {
    const ss: SoftwareScan
    const debounce: DebounceInput
    const keyLabel: KeySpec

    ghost predicate Valid()
      reads this, ss, debounce, debounce.hid
    {
      ss.debounce == debounce && ss.Valid() && keyLabel == BreakLabel
    }

    constructor (ss: SoftwareScan)
      requires ss.Valid()
      ensures Valid() && this.ss == ss && debounce == ss.debounce
    {
      this.ss := ss;
      debounce := ss.debounce;
      keyLabel := BreakLabel;
    }

    /**
     * `check()` with the button line reading `lineHigh` and the matrix
     * sense line reading `pressed`: while pressed, probe the shift key and
     * pass the label to the engine. The probe's answer goes to the engine
     * as its `shift` argument, which the engine does not act on.
     */
    method Check(lineHigh: bool, pressed: (int, int) -> bool, now: real)
      requires Valid()
      modifies ss.bus, debounce, debounce.hid
      ensures Valid()
      ensures ss.bus.trace == old(ss.bus.trace) + (if lineHigh then [] else ShiftProbeTrace())
      ensures debounce.State() == BreakStep(old(debounce.State()), lineHigh, now)
    {
      if !lineHigh {
        var shift := ss.CheckShift(pressed);
        debounce.Input(keyLabel, shift, now);
      } else {
        assert ss.bus.trace == old(ss.bus.trace) + [];
      }
    }
  }

  /** The engine after the scan and the break button of one tick, before its expiry check. */
  function TickInputs(e: Engine, hardwareScan: bool, absenceCount: int, interrupt: bool,
                      pressed: (int, int) -> bool, breakHigh: bool, now: real): Engine
  {
    var scanned :=
      if hardwareScan then ActionEffect(e, AbsenceStep(absenceCount, interrupt).1, pressed, now)
      else SweepEffect(e, pressed, now);
    BreakStep(scanned, breakHigh, now)
  }

  /** The engine after one tick. */
  function TickEngine(e: Engine, hardwareScan: bool, absenceCount: int, interrupt: bool,
                      pressed: (int, int) -> bool, breakHigh: bool, now: real,
                      delay: real, shortDelay: real): Engine
  {
    CheckStep(TickInputs(e, hardwareScan, absenceCount, interrupt, pressed, breakHigh, now), delay, shortDelay, now)
  }

  /** What one tick writes to the pins. */
  function TickTrace(rOpts: seq<seq<bool>>, cOpts: seq<seq<bool>>, hardwareScan: bool, interrupt: bool,
                     breakHigh: bool): seq<PinWrite>
    requires MaxRows <= |rOpts| && MaxColumns <= |cOpts|
  {
    (if hardwareScan then HardwareTrace(rOpts, cOpts, interrupt) else SweepTrace(rOpts, cOpts)) +
    (if breakHigh then [] else ShiftProbeTrace())
  }

  /**
   * A key first observed at `t` is still queued, and so still held down,
   * after an expiry check at `now` that comes within both half the delay
   * and the short delay of `t`.
   */
  lemma ObservedKeyOutlivesACheck(e: Engine, spec: KeySpec, t: real, now: real, delay: real, shortDelay: real)
    requires Distinct(e.queue) && delay >= 0.0
    requires now <= t + delay / 2.0 && now <= t + shortDelay
    requires Resolve(spec, e.shiftDown).0 !in KeysOf(e.queue)
    ensures Resolve(spec, e.shiftDown).0 in KeysOf(CheckStep(InputStep(e, spec, t), delay, shortDelay, now).queue)
  {
    var key := Resolve(spec, e.shiftDown).0;
    var e1 := InputStep(e, spec, t);
    InputKeepsDistinct(e, spec, t);
    var q := e1.queue;
    var i := |q| - 1;
    assert q[i] == Pending(key, t);
    PassBounds(q, i, e1.recent, e1.noInput, delay, shortDelay, now);
    var kept := Pass(q, e1.recent, e1.noInput, delay, shortDelay, now).kept;
    assert q[i] in kept;
    var j :| 0 <= j < |kept| && kept[j] == q[i];
    assert KeysOf(kept)[j] == key;
  }

  /** The scan and the break button of a tick only append entries observed at `now`. */
  lemma TickInputsGrow(e: Engine, hardwareScan: bool, absenceCount: int, interrupt: bool,
                       pressed: (int, int) -> bool, breakHigh: bool, now: real)
    requires Distinct(e.queue)
    ensures Grows(e.queue, TickInputs(e, hardwareScan, absenceCount, interrupt, pressed, breakHigh, now).queue, now)
    ensures Distinct(TickInputs(e, hardwareScan, absenceCount, interrupt, pressed, breakHigh, now).queue)
  {
    var scanned :=
      if hardwareScan then ActionEffect(e, AbsenceStep(absenceCount, interrupt).1, pressed, now)
      else SweepEffect(e, pressed, now);
    if hardwareScan {
      ActionGrows(e, AbsenceStep(absenceCount, interrupt).1, pressed, now);
    } else {
      ColumnsGrows(e, pressed, now, MaxColumns);
    }
    if breakHigh {
      GrowsRefl(scanned.queue, now);
    } else {
      InputGrows(scanned, BreakLabel, now);
    }
    GrowsTrans(e.queue, scanned.queue, BreakStep(scanned, breakHigh, now).queue, now);
  }

  /**
   * A tick keeps the queue's earlier entries in front, in order, and every
   * entry its scan or its break button adds is observed at the tick's time
   * and is still queued, so still held down, after the tick's expiry check.
   */
  lemma TickKeepsItsInputs(e: Engine, hardwareScan: bool, absenceCount: int, interrupt: bool,
                           pressed: (int, int) -> bool, breakHigh: bool, now: real,
                           delay: real, shortDelay: real)
    requires Distinct(e.queue) && delay >= 0.0 && shortDelay >= 0.0
    ensures var q := TickInputs(e, hardwareScan, absenceCount, interrupt, pressed, breakHigh, now).queue;
      && |e.queue| <= |q| && q[..|e.queue|] == e.queue
      && forall j :: |e.queue| <= j < |q| ==>
           && q[j].observedAt == now
           && q[j] in TickEngine(e, hardwareScan, absenceCount, interrupt, pressed, breakHigh, now, delay, shortDelay).queue
  {
    var pre := TickInputs(e, hardwareScan, absenceCount, interrupt, pressed, breakHigh, now);
    TickInputsGrow(e, hardwareScan, absenceCount, interrupt, pressed, breakHigh, now);
    forall j | |e.queue| <= j < |pre.queue|
      ensures pre.queue[j] in CheckStep(pre, delay, shortDelay, now).queue
    {
      PassBounds(pre.queue, j, pre.recent, pre.noInput, delay, shortDelay, now);
    }
  }

  /**
   * The break button held down is one BACKSPACE press however the shift
   * key stands, unless BACKSPACE is already queued, when it only clears
   * the no-input flag; nothing happens while its line is high.
   */
  lemma BreakIsBackspace(e: Engine, now: real)
    ensures Plain(BACKSPACE) !in KeysOf(e.queue) ==>
      && BreakStep(e, false, now).log == e.log + [Press(BACKSPACE)]
      && BreakStep(e, false, now).queue == e.queue + [Pending(Plain(BACKSPACE), now)]
    ensures Plain(BACKSPACE) in KeysOf(e.queue) ==> BreakStep(e, false, now) == e.(noInput := false)
    ensures BreakStep(e, true, now) == e
  {
  }

  /**
   * `BBCKeyboardInterface`, together with the objects the source keeps as
   * module globals: the sink, the engine and the break button.
   */
  class KeyboardInterface {
    const hardwareScan: bool
    const hid: HidKeyboard
    const debounce: DebounceInput
    const bus: PinBus
    const blink: BlinkLed
    const hs: HardwareScan
    const ss: SoftwareScan
    const breakButton: BreakButtonProcessor

    ghost predicate Valid()
      reads this, hid, debounce, blink, hs, ss, breakButton
    {
      debounce.hid == hid && ss.debounce == debounce && ss.bus == bus && hs.bus == bus &&
      breakButton.ss == ss && breakButton.debounce == debounce &&
      blink.Valid() && hs.Valid() && breakButton.Valid()
    }

    /**
     * Build the parts; with the hardware scan in use the enable line is
     * raised, since the software scan lowers it only while it sweeps.
     */
    constructor (hardwareScan: bool)
      ensures Valid() && this.hardwareScan == hardwareScan
      ensures bus.trace == if hardwareScan then [Write(KbEnable, true)] else []
      ensures debounce.State() == Engine([], None, false, false, [])
      ensures debounce.delay == 0.15 && debounce.shortDelay == 0.09
      ensures hs.absenceCount == 0 && blink.increment == 0 && blink.leds == [false]
      ensures ss.rOpts == Options(|RowPins|) && ss.cOpts == Options(|ColumnPins|)
    {
      this.hardwareScan := hardwareScan;
      var hid := new HidKeyboard();
      var debounce := new DebounceInput(hid);
      var bus := new PinBus();
      var ss := new SoftwareScan(bus, debounce);
      this.hid := hid;
      this.debounce := debounce;
      this.bus := bus;
      blink := new BlinkLed();
      hs := new HardwareScan(bus);
      this.ss := ss;
      breakButton := new BreakButtonProcessor(ss);
      new;
      if hardwareScan {
        bus.Set(KbEnable, true);
      }
    }

    /**
     * `check()`: one tick at time `now`, with the interrupt line reading
     * `interrupt`, the matrix sense line reading `pressed` and the break
     * button line reading `breakHigh`.
     */
    method Check(interrupt: bool, pressed: (int, int) -> bool, breakHigh: bool, now: real)
      requires Valid()
      modifies blink, hs, bus, debounce, hid
      ensures Valid()
      ensures (blink.increment, blink.leds) == BlinkStep(old(blink.increment), old(blink.leds))
      ensures hs.absenceCount ==
        if hardwareScan then AbsenceStep(old(hs.absenceCount), interrupt).0 else old(hs.absenceCount)
      ensures bus.trace == old(bus.trace) + TickTrace(ss.rOpts, ss.cOpts, hardwareScan, interrupt, breakHigh)
      ensures debounce.State() ==
        TickEngine(old(debounce.State()), hardwareScan, old(hs.absenceCount), interrupt, pressed, breakHigh, now,
                   debounce.delay, debounce.shortDelay)
    {
      blink.TryToggle();
      ghost var t0 := bus.trace;
      if hardwareScan {
        hs.Check(interrupt, ss, pressed, now);
      } else {
        ss.Check(pressed, now);
      }
      ghost var t1 := bus.trace;
      breakButton.Check(breakHigh, pressed, now);
      debounce.Check(now);
      AppendAssoc(t0, t1[|t0|..], bus.trace[|t1|..]);
    }
  }
}
