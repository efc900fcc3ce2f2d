/**
 * The matrix scanners. The software scan sweeps every column and row
 * address, drives the select lines with the address in binary, pulses the
 * clock to latch it and samples the sense line; every closed cell is handed
 * to `process`, which looks it up in the key table and feeds the debounce
 * engine. The hardware scan polls the keyboard's own interrupt line and runs
 * the software sweep only when it fires.
 *
 * Pins are modelled as a trace of the values written to them; the sense and
 * interrupt lines are inputs.
 */
module Scan {
  import opened Keys
  import opened Binary
  import opened Hid
  import opened Debounce

  /** The output lines the scanners drive. */
  datatype Pin =
    | RowSelect(index: nat)      // row_pins: GP5, GP4, GP3
    | ColumnSelect(index: nat)   // col_pins: GP9, GP8, GP7, GP6
    | KbEnable                   // kb_en: GP2
    | Clock                      // the hardware scan clock: GP1

  datatype PinWrite = Write(pin: Pin, level: bool)

  const RowPins: seq<Pin> := [RowSelect(0), RowSelect(1), RowSelect(2)]
  const ColumnPins: seq<Pin> := [ColumnSelect(0), ColumnSelect(1), ColumnSelect(2), ColumnSelect(3)]

  /** `2 ** len(row_pins)` and `2 ** len(col_pins)`, as `AddressSpace` shows. */
  const MaxRows: nat := 8
  const MaxColumns: nat := 16

  lemma AddressSpace()
    ensures Pow2(|RowPins|) == MaxRows && Pow2(|ColumnPins|) == MaxColumns
  {
    assert Pow2(1) == 2 && Pow2(2) == 4;
    assert Pow2(3) == 8 && Pow2(4) == 16;
  }

  /** The absence count beyond which the hardware scan reports no input. */
  const AbsenceThreshold: nat := 100

  /** `zip(pins, levels)`, as writes of each level to its pin. */
  function Zip(pins: seq<Pin>, levels: seq<bool>): (r: seq<PinWrite>)
    ensures |r| == if |pins| < |levels| then |pins| else |levels|
    ensures forall i :: 0 <= i < |r| ==> r[i] == Write(pins[i], levels[i])
    ensures forall w :: w in r ==> w.pin in pins
  {
    var n := if |pins| < |levels| then |pins| else |levels|;
    seq(n, i requires 0 <= i < n => Write(pins[i], levels[i]))
  }

  /**
   * The output pins: every value written to them, in order. (The last
   * value written to a pin is its level.)
   */
  class PinBus {
    var trace: seq<PinWrite>

    constructor ()
      ensures trace == []
    {
      trace := [];
    }

    /** `pin.output.value = level`. */
    method Set(pin: Pin, level: bool)
      modifies this
      ensures trace == old(trace) + [Write(pin, level)]
    {
      trace := trace + [Write(pin, level)];
    }

    /** `for pin, value in zip(pins, levels): pin.output.value = value`. */
    method SetAll(pins: seq<Pin>, levels: seq<bool>)
      modifies this
      ensures trace == old(trace) + Zip(pins, levels)
    {
      var n := if |pins| < |levels| then |pins| else |levels|;
      var i := 0;
      while i < n
        invariant 0 <= i <= n
        invariant trace == old(trace) + Zip(pins, levels)[..i]
      {
        assert Zip(pins, levels)[..i + 1] == Zip(pins, levels)[..i] + [Write(pins[i], levels[i])];
        trace := trace + [Write(pins[i], levels[i])];
        i := i + 1;
      }
      assert Zip(pins, levels)[..n] == Zip(pins, levels);
    }
  }

  // ---------------------------------------------------------------------
  // The sweep: which cells it visits and what it writes.

  /** The cells of column `c` for the first `n` rows, row-inner order. */
  function ColumnVisits(c: int, n: nat): (r: seq<Coord>)
    ensures |r| == n
  {
    if n == 0 then [] else ColumnVisits(c, n - 1) + [(n - 1, c)]
  }

  /** The cells of the first `n` columns, column-outer, row-inner. */
  function Visits(n: nat): (r: seq<Coord>)
  {
    if n == 0 then [] else Visits(n - 1) + ColumnVisits(n - 1, MaxRows)
  }

  /**
   * What is written for the cell in row `r`, with row codes `rOpts`: its
   * row code and a clock pulse.
   */
  function CellTrace(rOpts: seq<seq<bool>>, r: nat): seq<PinWrite>
    requires r < |rOpts|
  {
    Zip(RowPins, rOpts[r]) + [Write(Clock, false), Write(Clock, true)]
  }

  function RowsTrace(rOpts: seq<seq<bool>>, n: nat): seq<PinWrite>
    requires n <= |rOpts|
  {
    if n == 0 then [] else RowsTrace(rOpts, n - 1) + CellTrace(rOpts, n - 1)
  }

  /** What is written for column `c`: its column code, then every row. */
  function ColumnTrace(rOpts: seq<seq<bool>>, cOpts: seq<seq<bool>>, c: nat): seq<PinWrite>
    requires MaxRows <= |rOpts| && c < |cOpts|
  {
    Zip(ColumnPins, cOpts[c]) + RowsTrace(rOpts, MaxRows)
  }

  function ColumnsTrace(rOpts: seq<seq<bool>>, cOpts: seq<seq<bool>>, n: nat): seq<PinWrite>
    requires MaxRows <= |rOpts| && n <= |cOpts|
  {
    if n == 0 then [] else ColumnsTrace(rOpts, cOpts, n - 1) + ColumnTrace(rOpts, cOpts, n - 1)
  }

  /** Everything one software sweep with select codes `rOpts` and `cOpts` writes. */
  function SweepTrace(rOpts: seq<seq<bool>>, cOpts: seq<seq<bool>>): seq<PinWrite>
    requires MaxRows <= |rOpts| && MaxColumns <= |cOpts|
  {
    [Write(KbEnable, false)] + ColumnsTrace(rOpts, cOpts, MaxColumns) + [Write(KbEnable, true)]
  }

  /** What `check_shift` writes. */
  function ShiftProbeTrace(): seq<PinWrite>
  {
    [Write(KbEnable, false)] + Zip(ColumnPins, Zeros(|ColumnPins|)) + Zip(RowPins, Zeros(|RowPins|)) +
    [Write(Clock, false)] + [Write(Clock, true)] + [Write(KbEnable, true)]
  }

  /** The cells of `cells` whose sense line reads true, in order. */
  function Hits(cells: seq<Coord>, pressed: (int, int) -> bool): seq<Coord>
  {
    if cells == [] then []
    else
      var last := cells[|cells| - 1];
      Hits(cells[..|cells| - 1], pressed) + (if pressed(last.0, last.1) then [last] else [])
  }

  /** `process(row, column)`: a mapped, truthy cell is an input of its key. */
  function ProcessStep(e: Engine, cell: Coord, now: real): Engine
  {
    match Forwarded(cell.0, cell.1)
    case None => e
    case Some(spec) => InputStep(e, spec, now)
  }

  function ProcessAll(e: Engine, cells: seq<Coord>, now: real): Engine
  {
    if cells == [] then e else ProcessStep(ProcessAll(e, cells[..|cells| - 1], now), cells[|cells| - 1], now)
  }

  /** The first `n` rows of column `cx`: each closed cell is processed. */
  function RowsEffect(e: Engine, pressed: (int, int) -> bool, now: real, cx: int, n: nat): Engine
  {
    if n == 0 then e
    else
      var before := RowsEffect(e, pressed, now, cx, n - 1);
      if pressed(n - 1, cx) then ProcessStep(before, (n - 1, cx), now) else before
  }

  /** The first `n` columns, each over every row. */
  function ColumnsEffect(e: Engine, pressed: (int, int) -> bool, now: real, n: nat): Engine
  {
    if n == 0 then e else RowsEffect(ColumnsEffect(e, pressed, now, n - 1), pressed, now, n - 1, MaxRows)
  }

  /**
   * The engine after one software sweep with sense line `pressed`;
   * `SweepProcessesHits` shows it processes the closed cells in visit order.
   */
  function SweepEffect(e: Engine, pressed: (int, int) -> bool, now: real): Engine
  {
    ColumnsEffect(e, pressed, now, MaxColumns)
  }

  // ---------------------------------------------------------------------
  // The absence counter of the hardware scan.

  datatype Action = Trigger | Absence | Idle

  /**
   * One tick of the hardware scan's counter: a tripped interrupt triggers
   * the sweep and clears the count; otherwise the count goes up, and once
   * it passes the threshold no-input is reported and the count is cleared.
   */
  function AbsenceStep(count: int, tripped: bool): (int, Action)
  {
    if tripped then (0, Trigger)
    else if count + 1 > AbsenceThreshold then (0, Absence)
    else (count + 1, Idle)
  }

  /** The engine after the hardware scan's action. */
  function ActionEffect(e: Engine, action: Action, pressed: (int, int) -> bool, now: real): Engine
  {
    match action
    case Trigger => SweepEffect(e, pressed, now)
    case Absence => NoInputStep(e)
    case Idle => e
  }

  /** What a hardware-scan tick writes: the extra clock low before a sweep, then the pulse. */
  function HardwareTrace(rOpts: seq<seq<bool>>, cOpts: seq<seq<bool>>, tripped: bool): seq<PinWrite>
    requires MaxRows <= |rOpts| && MaxColumns <= |cOpts|
  {
    (if tripped then [Write(Clock, false)] + SweepTrace(rOpts, cOpts) else []) + [Write(Clock, false), Write(Clock, true)]
  }

  // ---------------------------------------------------------------------
  // The scanners as objects.

  /** `SoftwareScan`, feeding the engine `debounce` and driving `bus`. */
  class SoftwareScan {
    const bus: PinBus
    const debounce: DebounceInput
    const rOpts: seq<seq<bool>>
    const cOpts: seq<seq<bool>>

    ghost predicate Valid()
      reads this, debounce, debounce.hid
    {
      debounce.Valid() &&
      |rOpts| == MaxRows && |cOpts| == MaxColumns
    }

    /** The row and column codes, `int_to_bin` of every address. */
    constructor (bus: PinBus, debounce: DebounceInput)
      requires debounce.Valid()
      ensures Valid() && this.bus == bus && this.debounce == debounce
      ensures rOpts == Options(|RowPins|) && cOpts == Options(|ColumnPins|)
    {
      AddressSpace();
      this.bus := bus;
      this.debounce := debounce;
      rOpts := Options(|RowPins|);
      cOpts := Options(|ColumnPins|);
    }

    /** `no_input()`. */
    method NoInput()
      requires Valid()
      modifies debounce
      ensures Valid()
      ensures debounce.State() == NoInputStep(old(debounce.State()))
    {
      debounce.NoInput();
    }

    /** `process(row, column)` at time `now`. */
    method Process(row: int, column: int, now: real)
      requires Valid()
      modifies debounce, debounce.hid
      ensures Valid()
      ensures debounce.State() == ProcessStep(old(debounce.State()), (row, column), now)
    {
      var keycode := Lookup(row, column);
      if keycode.Some? && Truthy(keycode.value) {
        debounce.Input(keycode.value, false, now);
      }
    }

    /**
     * `check_shift()`: address cell (0, 0), where SHIFT sits, by driving
     * every select line low, latch it, and read the sense line.
     */
    method CheckShift(pressed: (int, int) -> bool) returns (shift: bool)
      modifies bus
      ensures shift == pressed(0, 0)
      ensures bus.trace == old(bus.trace) + ShiftProbeTrace()
    {
      ghost var t0 := bus.trace;
      bus.Set(KbEnable, false);
      bus.SetAll(ColumnPins, Zeros(|ColumnPins|));
      bus.SetAll(RowPins, Zeros(|RowPins|));
      bus.Set(Clock, false);
      bus.Set(Clock, true);
      shift := pressed(0, 0);
      bus.Set(KbEnable, true);
      ProbeStep(t0, bus.trace);
    }

    /**
     * `check()`: one sweep of every column and row address with the sense
     * line reading `pressed`, at time `now`. The body of each loop of the
     * source's nested sweep is `ScanColumn` and `ScanCell`.
     */
    method Check(pressed: (int, int) -> bool, now: real)
      requires Valid()
      modifies bus, debounce, debounce.hid
      ensures Valid()
      ensures bus.trace == old(bus.trace) + SweepTrace(rOpts, cOpts)
      ensures debounce.State() == SweepEffect(old(debounce.State()), pressed, now)
    {
      ghost var e0 := debounce.State();
      ghost var t0 := bus.trace;
      bus.Set(KbEnable, false);
      var cx := 0;
      while cx < MaxColumns
        invariant 0 <= cx <= MaxColumns && Valid()
        invariant bus.trace == t0 + [Write(KbEnable, false)] + ColumnsTrace(rOpts, cOpts, cx)
        invariant debounce.State() == ColumnsEffect(e0, pressed, now, cx)
      {
        ghost var t1 := bus.trace;
        ScanColumn(cx, pressed, now);
        ColumnStep(rOpts, cOpts, t0, cx, t1, bus.trace);
        cx := cx + 1;
      }
      bus.Set(KbEnable, true);
      SweepStep(rOpts, cOpts, t0, bus.trace);
    }

    /** Column `cx` of the sweep: its column code, then every row. */
    method ScanColumn(cx: nat, pressed: (int, int) -> bool, now: real)
      requires Valid() && cx < MaxColumns
      modifies bus, debounce, debounce.hid
      ensures Valid()
      ensures bus.trace == old(bus.trace) + Zip(ColumnPins, cOpts[cx]) + RowsTrace(rOpts, MaxRows)
      ensures debounce.State() == RowsEffect(old(debounce.State()), pressed, now, cx, MaxRows)
    {
      ghost var e1 := debounce.State();
      bus.SetAll(ColumnPins, cOpts[cx]);
      ghost var t1 := bus.trace;
      var rx := 0;
      while rx < MaxRows
        invariant 0 <= rx <= MaxRows && Valid()
        invariant bus.trace == t1 + RowsTrace(rOpts, rx)
        invariant debounce.State() == RowsEffect(e1, pressed, now, cx, rx)
      {
        ScanCell(rx, cx, pressed, now);
        AppendAssoc(t1, RowsTrace(rOpts, rx), CellTrace(rOpts, rx));
        rx := rx + 1;
      }
    }

    /** The cell in row `rx` of column `cx`: row code, clock pulse, sample. */
    method ScanCell(rx: nat, cx: nat, pressed: (int, int) -> bool, now: real)
      requires Valid() && rx < MaxRows
      modifies bus, debounce, debounce.hid
      ensures Valid()
      ensures bus.trace == old(bus.trace) + CellTrace(rOpts, rx)
      ensures debounce.State() ==
        if pressed(rx, cx) then ProcessStep(old(debounce.State()), (rx, cx), now) else old(debounce.State())
    {
      ghost var t := bus.trace;
      bus.SetAll(RowPins, rOpts[rx]);
      bus.Set(Clock, false);
      bus.Set(Clock, true);
      CellStep(rOpts, t, rx, bus.trace);
      if pressed(rx, cx) {
        Process(rx, cx, now);
      }
    }
  }

  /** `HardwareScan`, with its absence counter. */
  class HardwareScan {
    const bus: PinBus
    var absenceCount: int

    ghost predicate Valid()
      reads this
    {
      0 <= absenceCount <= AbsenceThreshold
    }

    /**
     * The source's constructor assigns `kb_en.value`, an attribute of the
     * pin wrapper rather than the pin, so no pin is written here.
     */
    constructor (bus: PinBus)
      ensures Valid() && this.bus == bus && absenceCount == 0
    {
      this.bus := bus;
      absenceCount := 0;
    }

    /**
     * `check(ss.check, ss.no_input)` with the interrupt line reading
     * `tripped`: the trigger runs the sweep of `ss`, the absence callback
     * is `ss.no_input`.
     */
    method Check(tripped: bool, ss: SoftwareScan, pressed: (int, int) -> bool, now: real)
      requires Valid() && ss.Valid() && ss.bus == bus
      modifies this, bus, ss.debounce, ss.debounce.hid
      ensures Valid() && ss.Valid()
      ensures absenceCount == AbsenceStep(old(absenceCount), tripped).0
      ensures bus.trace == old(bus.trace) + HardwareTrace(ss.rOpts, ss.cOpts, tripped)
      ensures ss.debounce.State() ==
        ActionEffect(old(ss.debounce.State()), AbsenceStep(old(absenceCount), tripped).1, pressed, now)
    {
      if tripped {
        bus.Set(Clock, false);
        ss.Check(pressed, now);
        absenceCount := 0;
      } else {
        absenceCount := absenceCount + 1;
        if absenceCount > AbsenceThreshold {
          ss.NoInput();
          absenceCount := 0;
        }
      }
      ghost var middle := bus.trace;
      bus.Set(Clock, false);
      bus.Set(Clock, true);
      AppendAssoc(middle, [Write(Clock, false)], [Write(Clock, true)]);
      if tripped {
        AppendAssoc(old(bus.trace), [Write(Clock, false)] + SweepTrace(ss.rOpts, ss.cOpts), [Write(Clock, false), Write(Clock, true)]);
        AppendAssoc(old(bus.trace), [Write(Clock, false)], SweepTrace(ss.rOpts, ss.cOpts));
      } else {
        assert middle == old(bus.trace) + [];
      }
    }
  }

  // ---------------------------------------------------------------------
  // Steps of the sweep loops.

  lemma CellStep(rOpts: seq<seq<bool>>, before: seq<PinWrite>, rx: nat, after: seq<PinWrite>)
    requires rx < |rOpts|
    requires after == before + Zip(RowPins, rOpts[rx]) + [Write(Clock, false)] + [Write(Clock, true)]
    ensures after == before + CellTrace(rOpts, rx)
  {
    var cell := Zip(RowPins, rOpts[rx]);
    AppendAssoc(before + cell, [Write(Clock, false)], [Write(Clock, true)]);
    AppendAssoc(before, cell, [Write(Clock, false), Write(Clock, true)]);
  }

  lemma ColumnStep(rOpts: seq<seq<bool>>, cOpts: seq<seq<bool>>, t0: seq<PinWrite>, cx: nat, before: seq<PinWrite>, after: seq<PinWrite>)
    requires MaxRows <= |rOpts| && cx < |cOpts|
    requires before == t0 + [Write(KbEnable, false)] + ColumnsTrace(rOpts, cOpts, cx)
    requires after == before + Zip(ColumnPins, cOpts[cx]) + RowsTrace(rOpts, MaxRows)
    ensures after == t0 + [Write(KbEnable, false)] + ColumnsTrace(rOpts, cOpts, cx + 1)
  {
    AppendAssoc(before, Zip(ColumnPins, cOpts[cx]), RowsTrace(rOpts, MaxRows));
    AppendAssoc(t0 + [Write(KbEnable, false)], ColumnsTrace(rOpts, cOpts, cx), ColumnTrace(rOpts, cOpts, cx));
  }

  lemma SweepStep(rOpts: seq<seq<bool>>, cOpts: seq<seq<bool>>, t0: seq<PinWrite>, after: seq<PinWrite>)
    requires MaxRows <= |rOpts| && MaxColumns <= |cOpts|
    requires after == t0 + [Write(KbEnable, false)] + ColumnsTrace(rOpts, cOpts, MaxColumns) + [Write(KbEnable, true)]
    ensures after == t0 + SweepTrace(rOpts, cOpts)
  {
    var middle := ColumnsTrace(rOpts, cOpts, MaxColumns);
    AppendAssoc(t0 + [Write(KbEnable, false)], middle, [Write(KbEnable, true)]);
    AppendAssoc(t0, [Write(KbEnable, false)], middle + [Write(KbEnable, true)]);
  }

  lemma ProbeStep(t0: seq<PinWrite>, after: seq<PinWrite>)
    requires after == t0 + [Write(KbEnable, false)] + Zip(ColumnPins, Zeros(|ColumnPins|)) + Zip(RowPins, Zeros(|RowPins|)) +
      [Write(Clock, false)] + [Write(Clock, true)] + [Write(KbEnable, true)]
    ensures after == t0 + ShiftProbeTrace()
  {
    var x1, x2, x3 := [Write(KbEnable, false)], Zip(ColumnPins, Zeros(|ColumnPins|)), Zip(RowPins, Zeros(|RowPins|));
    var x4, x5, x6 := [Write(Clock, false)], [Write(Clock, true)], [Write(KbEnable, true)];
    AppendAssoc(t0, x1 + x2 + x3 + x4 + x5, x6);
    AppendAssoc(t0, x1 + x2 + x3 + x4, x5);
    AppendAssoc(t0, x1 + x2 + x3, x4);
    AppendAssoc(t0, x1 + x2, x3);
    AppendAssoc(t0, x1, x2);
  }

  lemma ProcessAllConcat(e: Engine, a: seq<Coord>, b: seq<Coord>, now: real)
    ensures ProcessAll(e, a + b, now) == ProcessAll(ProcessAll(e, a, now), b, now)
    decreases |b|
  {
    if b != [] {
      assert (a + b)[..|a + b| - 1] == a + b[..|b| - 1];
      ProcessAllConcat(e, a, b[..|b| - 1], now);
    } else {
      assert a + b == a;
    }
  }

  lemma {:induction false} HitsConcat(a: seq<Coord>, b: seq<Coord>, pressed: (int, int) -> bool)
    ensures Hits(a + b, pressed) == Hits(a, pressed) + Hits(b, pressed)
    decreases |b|
  {
    if b == [] {
      assert a + b == a;
    } else {
      assert (a + b)[..|a + b| - 1] == a + b[..|b| - 1];
      HitsConcat(a, b[..|b| - 1], pressed);
      var x := b[|b| - 1];
      AppendAssoc(Hits(a, pressed), Hits(b[..|b| - 1], pressed), if pressed(x.0, x.1) then [x] else []);
    }
  }

  lemma {:induction false} RowsProcessHits(e: Engine, pressed: (int, int) -> bool, now: real, cx: int, n: nat)
    ensures RowsEffect(e, pressed, now, cx, n) == ProcessAll(e, Hits(ColumnVisits(cx, n), pressed), now)
  {
    if n > 0 {
      RowsProcessHits(e, pressed, now, cx, n - 1);
      var hits := Hits(ColumnVisits(cx, n - 1), pressed);
      assert Hits(ColumnVisits(cx, n), pressed) == hits + (if pressed(n - 1, cx) then [(n - 1, cx)] else []) by {
        assert ColumnVisits(cx, n)[..n - 1] == ColumnVisits(cx, n - 1);
      }
      if pressed(n - 1, cx) {
        ProcessAllSnoc(e, hits, (n - 1, cx), now);
      } else {
        assert hits + [] == hits;
      }
    }
  }

  lemma ProcessAllSnoc(e: Engine, cells: seq<Coord>, x: Coord, now: real)
    ensures ProcessAll(e, cells + [x], now) == ProcessStep(ProcessAll(e, cells, now), x, now)
  {
    assert (cells + [x])[..|cells|] == cells;
  }

  lemma {:induction false} ColumnsProcessHits(e: Engine, pressed: (int, int) -> bool, now: real, n: nat)
    ensures ColumnsEffect(e, pressed, now, n) == ProcessAll(e, Hits(Visits(n), pressed), now)
  {
    if n > 0 {
      ColumnsProcessHits(e, pressed, now, n - 1);
      var before := ColumnsEffect(e, pressed, now, n - 1);
      RowsProcessHits(before, pressed, now, n - 1, MaxRows);
      HitsConcat(Visits(n - 1), ColumnVisits(n - 1, MaxRows), pressed);
      ProcessAllConcat(e, Hits(Visits(n - 1), pressed), Hits(ColumnVisits(n - 1, MaxRows), pressed), now);
    }
  }

  /**
   * A sweep processes exactly the cells whose sense line reads true, one
   * after another in the order the sweep visits them.
   */
  lemma SweepProcessesHits(e: Engine, pressed: (int, int) -> bool, now: real)
    ensures SweepEffect(e, pressed, now) == ProcessAll(e, Hits(Visits(MaxColumns), pressed), now)
  {
    ColumnsProcessHits(e, pressed, now, MaxColumns);
  }

  // ---------------------------------------------------------------------
  // What one sweep does.

  lemma {:induction false} ColumnVisitsIndex(c: int, n: nat)
    ensures forall i :: 0 <= i < n ==> ColumnVisits(c, n)[i] == (i, c)
  {
    if n > 0 {
      ColumnVisitsIndex(c, n - 1);
    }
  }

  lemma DivMod(q: nat, k: nat)
    requires k < MaxRows
    ensures (MaxRows * q + k) % MaxRows == k && (MaxRows * q + k) / MaxRows == q
  {
  }

  /** Position `i` of the sweep is row `i % 8` of column `i / 8`. */
  lemma {:induction false} VisitsIndex(n: nat)
    ensures |Visits(n)| == MaxRows * n
    ensures forall i :: 0 <= i < |Visits(n)| ==> Visits(n)[i] == (i % MaxRows, i / MaxRows)
  {
    if n > 0 {
      VisitsIndex(n - 1);
      ColumnVisitsIndex(n - 1, MaxRows);
      var v := Visits(n);
      forall i | 0 <= i < |v| ensures v[i] == (i % MaxRows, i / MaxRows) {
        if i >= MaxRows * (n - 1) {
          DivMod(n - 1, i - MaxRows * (n - 1));
        }
      }
    }
  }

  lemma VisitsCover(n: nat)
    ensures |Visits(n)| == MaxRows * n
    ensures forall r, c :: 0 <= r < MaxRows && 0 <= c < n ==> Visits(n)[MaxRows * c + r] == (r, c)
  {
    VisitsIndex(n);
    forall r, c | 0 <= r < MaxRows && 0 <= c < n
      ensures Visits(n)[MaxRows * c + r] == (r, c)
    {
      DivMod(c, r);
    }
  }

  /** The sweep visits all 8 x 16 cells, column by column and row by row within a column. */
  lemma SweepCoversMatrix()
    ensures |Visits(MaxColumns)| == MaxRows * MaxColumns
    ensures forall r, c :: 0 <= r < MaxRows && 0 <= c < MaxColumns ==> Visits(MaxColumns)[MaxRows * c + r] == (r, c)
  {
    VisitsCover(MaxColumns);
  }

  lemma VisitsOnce(n: nat)
    ensures forall i, j :: 0 <= i < j < |Visits(n)| ==> Visits(n)[i] != Visits(n)[j]
  {
    VisitsIndex(n);
    var v := Visits(n);
    forall i, j | 0 <= i < j < |v| ensures v[i] != v[j] {
      SplitIndex(i);
      SplitIndex(j);
    }
  }

  /** ... and each of them once. */
  lemma SweepVisitsOnce()
    ensures forall i, j :: 0 <= i < j < |Visits(MaxColumns)| ==> Visits(MaxColumns)[i] != Visits(MaxColumns)[j]
  {
    VisitsOnce(MaxColumns);
  }

  lemma SplitIndex(i: nat)
    ensures i == MaxRows * (i / MaxRows) + i % MaxRows
  {
  }

  /**
   * The shift probe drives the select lines with the codes of row 0 and
   * column 0, which is the SHIFT cell, and pulses the clock once.
   */
  lemma ShiftProbeAddressesShift()
    ensures Zeros(|RowPins|) == Options(|RowPins|)[0] && Zeros(|ColumnPins|) == Options(|ColumnPins|)[0]
    ensures Forwarded(0, 0) == Some(Fixed(Plain(SHIFT)))
    ensures Pulses(ShiftProbeTrace()) == 1
  {
    AddressSpace();
    assert Digits(0) == [false];
    var t := ShiftProbeTrace();
    var head := [Write(KbEnable, false)] + Zip(ColumnPins, Zeros(|ColumnPins|)) + Zip(RowPins, Zeros(|RowPins|));
    assert SelectOnly(head[1..]);
    assert head == [Write(KbEnable, false)] + head[1..];
    NoClockNoPulses(head[1..]);
    PulsesConcat([Write(KbEnable, false)], head[1..]);
    PulsesConcat(head, [Write(Clock, false)]);
    PulsesConcat(head + [Write(Clock, false)], [Write(Clock, true)]);
    PulsesConcat(head + [Write(Clock, false)] + [Write(Clock, true)], [Write(KbEnable, true)]);
  }

  /** The number of clock pulses (low writes to the clock) in a trace. */
  function Pulses(t: seq<PinWrite>): nat
  {
    if t == [] then 0
    else Pulses(t[..|t| - 1]) + (if t[|t| - 1] == Write(Clock, false) then 1 else 0)
  }

  lemma {:induction false} PulsesConcat(a: seq<PinWrite>, b: seq<PinWrite>)
    ensures Pulses(a + b) == Pulses(a) + Pulses(b)
    decreases |b|
  {
    if b == [] {
      assert a + b == a;
    } else {
      assert (a + b)[..|a + b| - 1] == a + b[..|b| - 1];
      PulsesConcat(a, b[..|b| - 1]);
    }
  }

  lemma {:induction false} NoClockNoPulses(t: seq<PinWrite>)
    requires forall w :: w in t ==> w.pin != Clock
    ensures Pulses(t) == 0
  {
    if t != [] {
      assert t[|t| - 1] in t;
      assert forall w :: w in t[..|t| - 1] ==> w in t;
      NoClockNoPulses(t[..|t| - 1]);
    }
  }

  /** No select-line write touches the enable line or the clock. */
  predicate SelectOnly(t: seq<PinWrite>)
  {
    forall w :: w in t ==> w.pin != KbEnable && w.pin != Clock
  }

  lemma {:induction false} RowsShape(rOpts: seq<seq<bool>>, n: nat)
    requires n <= |rOpts|
    ensures Pulses(RowsTrace(rOpts, n)) == n
    ensures forall w :: w in RowsTrace(rOpts, n) ==> w.pin != KbEnable
  {
    if n > 0 {
      RowsShape(rOpts, n - 1);
      var cell := CellTrace(rOpts, n - 1);
      assert Pulses(cell) == 1 && forall w :: w in cell ==> w.pin != KbEnable by {
        var z := Zip(RowPins, rOpts[n - 1]);
        assert SelectOnly(z);
        NoClockNoPulses(z);
        PulsesConcat(z, [Write(Clock, false), Write(Clock, true)]);
        assert Pulses([Write(Clock, false), Write(Clock, true)]) == 1 by {
          assert [Write(Clock, false), Write(Clock, true)][..1] == [Write(Clock, false)];
        }
      }
      PulsesConcat(RowsTrace(rOpts, n - 1), cell);
    }
  }

  lemma {:induction false} ColumnsShape(rOpts: seq<seq<bool>>, cOpts: seq<seq<bool>>, n: nat)
    requires MaxRows <= |rOpts| && n <= |cOpts|
    ensures Pulses(ColumnsTrace(rOpts, cOpts, n)) == MaxRows * n
    ensures forall w :: w in ColumnsTrace(rOpts, cOpts, n) ==> w.pin != KbEnable
  {
    if n > 0 {
      ColumnsShape(rOpts, cOpts, n - 1);
      var column := ColumnTrace(rOpts, cOpts, n - 1);
      assert Pulses(column) == MaxRows && forall w :: w in column ==> w.pin != KbEnable by {
        RowsShape(rOpts, MaxRows);
        var z := Zip(ColumnPins, cOpts[n - 1]);
        assert SelectOnly(z);
        NoClockNoPulses(z);
        PulsesConcat(z, RowsTrace(rOpts, MaxRows));
      }
      PulsesConcat(ColumnsTrace(rOpts, cOpts, n - 1), column);
    }
  }

  /**
   * A sweep pulses the clock once per cell, 128 times, and writes the
   * enable line only first (low) and last (high).
   */
  lemma SweepShape(rOpts: seq<seq<bool>>, cOpts: seq<seq<bool>>)
    requires MaxRows <= |rOpts| && MaxColumns <= |cOpts|
    ensures Pulses(SweepTrace(rOpts, cOpts)) == MaxRows * MaxColumns
    ensures var t := SweepTrace(rOpts, cOpts);
      t[0] == Write(KbEnable, false) && t[|t| - 1] == Write(KbEnable, true) &&
      forall i :: 0 < i < |t| - 1 ==> t[i].pin != KbEnable
  {
    var middle := ColumnsTrace(rOpts, cOpts, MaxColumns);
    ColumnsShape(rOpts, cOpts, MaxColumns);
    PulsesConcat([Write(KbEnable, false)], middle);
    PulsesConcat([Write(KbEnable, false)] + middle, [Write(KbEnable, true)]);
    var t := SweepTrace(rOpts, cOpts);
    forall i | 0 < i < |t| - 1 ensures t[i].pin != KbEnable {
      assert t[i] == middle[i - 1];
      assert middle[i - 1] in middle;
    }
  }

  /**
   * With the codes `int_to_bin` builds, row `r` is selected by driving the
   * row lines with `r` in binary, most significant bit on the first pin.
   */
  lemma RowCode(r: nat)
    requires r < MaxRows
    ensures |Options(|RowPins|)| == MaxRows
    ensures var code := Options(|RowPins|)[r];
      |code| == |RowPins| && FromBin(code) == r &&
      Zip(RowPins, code) == [Write(RowSelect(0), code[0]), Write(RowSelect(1), code[1]), Write(RowSelect(2), code[2])]
  {
    AddressSpace();
    IntToBinRoundTrip(r, |RowPins|);
  }

  /** ... and column `c` likewise on the column lines. */
  lemma ColumnCode(c: nat)
    requires c < MaxColumns
    ensures |Options(|ColumnPins|)| == MaxColumns
    ensures var code := Options(|ColumnPins|)[c];
      |code| == |ColumnPins| && FromBin(code) == c &&
      Zip(ColumnPins, code) ==
        [Write(ColumnSelect(0), code[0]), Write(ColumnSelect(1), code[1]), Write(ColumnSelect(2), code[2]), Write(ColumnSelect(3), code[3])]
  {
    AddressSpace();
    IntToBinRoundTrip(c, |ColumnPins|);
  }

  lemma {:induction false} HitsMembership(cells: seq<Coord>, pressed: (int, int) -> bool)
    ensures forall x :: x in Hits(cells, pressed) <==> x in cells && pressed(x.0, x.1)
  {
    if cells != [] {
      var init := cells[..|cells| - 1];
      HitsMembership(init, pressed);
      assert cells == init + [cells[|cells| - 1]];
    }
  }

  lemma {:induction false} HitsNone(cells: seq<Coord>, pressed: (int, int) -> bool)
    requires forall i :: 0 <= i < |cells| ==> !pressed(cells[i].0, cells[i].1)
    ensures Hits(cells, pressed) == []
  {
    if cells != [] {
      HitsNone(cells[..|cells| - 1], pressed);
    }
  }

  lemma Unpressed(x: Coord, r: nat, c: nat, pressed: (int, int) -> bool)
    requires forall r', c' :: pressed(r', c') <==> r' == r && c' == c
    requires x != (r, c)
    ensures !pressed(x.0, x.1)
  {
    var a, b := x.0, x.1;
    assert pressed(a, b) <==> a == r && b == c;
  }

  /** Over the first `n` columns, a sense line closed only at `(r, c)` hits just that cell. */
  lemma OneHit(n: nat, r: nat, c: nat, pressed: (int, int) -> bool)
    requires r < MaxRows && c < n
    requires forall r', c' :: pressed(r', c') <==> r' == r && c' == c
    ensures Hits(Visits(n), pressed) == [(r, c)]
  {
    var v := Visits(n);
    VisitsCover(n);
    VisitsOnce(n);
    var i := MaxRows * c + r;
    assert v[i] == (r, c);
    assert v == v[..i] + [v[i]] + v[i + 1..];
    var before := v[..i];
    forall j | 0 <= j < |before| ensures !pressed(before[j].0, before[j].1) {
      assert before[j] == v[j] != v[i];
      Unpressed(before[j], r, c, pressed);
    }
    var after := v[i + 1..];
    forall j | 0 <= j < |after| ensures !pressed(after[j].0, after[j].1) {
      assert after[j] == v[i + 1 + j] != v[i];
      Unpressed(after[j], r, c, pressed);
    }
    HitsNone(before, pressed);
    HitsNone(after, pressed);
    HitsConcat(before + [v[i]], after, pressed);
    HitsConcat(before, [v[i]], pressed);
    assert Hits([v[i]], pressed) == [(r, c)];
  }

  /**
   * A sweep with only the P cell (row 3, column 7) closed forwards P and
   * nothing else.
   */
  lemma SinglePressSweep(e: Engine, pressed: (int, int) -> bool, now: real)
    requires forall r, c :: pressed(r, c) <==> r == 3 && c == 7
    ensures SweepEffect(e, pressed, now) == InputStep(e, Fixed(Plain(P)), now)
  {
    OneHit(MaxColumns, 3, 7, pressed);
    SweepProcessesHits(e, pressed, now);
    assert ProcessAll(e, [(3, 7)], now) == ProcessStep(e, (3, 7), now);
  }

  /**
   * A cell held closed across sweeps is one input: processing it again
   * changes nothing, whatever the sink's shift flag did meanwhile.
   */
  lemma ProcessTwiceIsOnce(e: Engine, cell: Coord, t1: real, t2: real)
    ensures ProcessStep(ProcessStep(e, cell, t1), cell, t2) == ProcessStep(e, cell, t1)
  {
    match Forwarded(cell.0, cell.1)
    case None =>
    case Some(spec) =>
      ForwardedIsLookup(cell.0, cell.1);
      var (key, escape) := Resolve(spec, e.shiftDown);
      var e1 := InputStep(e, spec, t1);
      if key !in KeysOf(e.queue) {
        DownEventsShift(e.shiftDown, key, escape);
        if spec.AltShift? {
          AltShiftBranchesAreNotShift(cell.0, cell.1);
        }
      }
      assert Resolve(spec, e1.shiftDown).0 == key;
      SecondInputChangesNothing(e, spec, t1, spec, t2);
  }

  // ---------------------------------------------------------------------
  // What a sweep does to the queue: it only appends entries observed now.

  lemma ProcessGrows(e: Engine, cell: Coord, now: real)
    requires Distinct(e.queue)
    ensures Grows(e.queue, ProcessStep(e, cell, now).queue, now)
    ensures Distinct(ProcessStep(e, cell, now).queue)
    ensures |ProcessStep(e, cell, now).queue| <= |e.queue| + 1
  {
    match Forwarded(cell.0, cell.1)
    case None =>
      GrowsRefl(e.queue, now);
    case Some(spec) =>
      InputGrows(e, spec, now);
  }

  lemma {:induction false} RowsGrows(e: Engine, pressed: (int, int) -> bool, now: real, cx: int, n: nat)
    requires Distinct(e.queue)
    ensures Grows(e.queue, RowsEffect(e, pressed, now, cx, n).queue, now)
    ensures Distinct(RowsEffect(e, pressed, now, cx, n).queue)
  {
    if n == 0 {
      GrowsRefl(e.queue, now);
    } else {
      RowsGrows(e, pressed, now, cx, n - 1);
      var before := RowsEffect(e, pressed, now, cx, n - 1);
      if pressed(n - 1, cx) {
        ProcessGrows(before, (n - 1, cx), now);
        GrowsTrans(e.queue, before.queue, ProcessStep(before, (n - 1, cx), now).queue, now);
      }
    }
  }

  lemma {:induction false} ColumnsGrows(e: Engine, pressed: (int, int) -> bool, now: real, n: nat)
    requires Distinct(e.queue)
    ensures Grows(e.queue, ColumnsEffect(e, pressed, now, n).queue, now)
    ensures Distinct(ColumnsEffect(e, pressed, now, n).queue)
  {
    if n == 0 {
      GrowsRefl(e.queue, now);
    } else {
      ColumnsGrows(e, pressed, now, n - 1);
      var before := ColumnsEffect(e, pressed, now, n - 1);
      RowsGrows(before, pressed, now, n - 1, MaxRows);
      GrowsTrans(e.queue, before.queue, ColumnsEffect(e, pressed, now, n).queue, now);
    }
  }

  /**
   * Whatever the hardware scan does in a tick, the queue keeps its entries
   * in order and gains only entries observed at `now`, one per key.
   */
  lemma ActionGrows(e: Engine, action: Action, pressed: (int, int) -> bool, now: real)
    requires Distinct(e.queue)
    ensures Grows(e.queue, ActionEffect(e, action, pressed, now).queue, now)
    ensures Distinct(ActionEffect(e, action, pressed, now).queue)
  {
    if action == Trigger {
      ColumnsGrows(e, pressed, now, MaxColumns);
    } else {
      GrowsRefl(e.queue, now);
    }
  }

  // ---------------------------------------------------------------------
  // The absence counter over a run of quiet ticks.

  /** The count after `n` ticks in a row without the interrupt. */
  function QuietRun(count: int, n: nat): int
  {
    if n == 0 then count else AbsenceStep(QuietRun(count, n - 1), false).0
  }

  /** The count stays within 0 .. 100, so it never grows without bound. */
  lemma AbsenceStepBounds(count: int, tripped: bool)
    requires 0 <= count <= AbsenceThreshold
    ensures 0 <= AbsenceStep(count, tripped).0 <= AbsenceThreshold
    ensures AbsenceStep(count, tripped).1 == Absence <==> !tripped && count == AbsenceThreshold
    ensures AbsenceStep(count, tripped).1 == Trigger <==> tripped
  {
  }

  /**
   * From a cleared count, no-input is reported on exactly every 101st
   * consecutive quiet tick.
   */
  lemma {:induction false} AbsenceCycle(n: nat)
    ensures QuietRun(0, n) == n % (AbsenceThreshold + 1)
    ensures n >= 1 ==>
      (AbsenceStep(QuietRun(0, n - 1), false).1 == Absence <==> n % (AbsenceThreshold + 1) == 0)
  {
    if n >= 1 {
      AbsenceCycle(n - 1);
      ModStep(n - 1);
    }
  }

  lemma ModStep(k: nat)
    ensures (k + 1) % (AbsenceThreshold + 1) ==
      if k % (AbsenceThreshold + 1) == AbsenceThreshold then 0 else k % (AbsenceThreshold + 1) + 1
  {
  }
}
