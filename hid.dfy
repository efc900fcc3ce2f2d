/**
 * The HID keyboard sink: the press and release calls the engine makes, kept
 * as an event log, and the `shift_down` flag the sink derives from them.
 * The USB transport and the keyboard layout are not part of this model.
 */
module Hid {
  import opened Keys

  datatype Event = Press(code: Keycode) | Release(code: Keycode)

  /**
   * The shift flag after the sink has seen `events`, starting from
   * `shiftDown`: a press of SHIFT sets it, a release clears it, every other
   * event leaves it alone.
   */
  function ShiftAfter(shiftDown: bool, events: seq<Event>): bool
  {
    if events == [] then shiftDown
    else
      var last := events[|events| - 1];
      if last.code == SHIFT then last.Press? else ShiftAfter(shiftDown, events[..|events| - 1])
  }

  /** Feeding the sink two runs of events is feeding it their concatenation. */
  lemma {:induction false} ShiftAfterConcat(shiftDown: bool, a: seq<Event>, b: seq<Event>)
    ensures ShiftAfter(shiftDown, a + b) == ShiftAfter(ShiftAfter(shiftDown, a), b)
    decreases |b|
  {
    if b != [] {
      assert (a + b)[..|a + b| - 1] == a + b[..|b| - 1];
      ShiftAfterConcat(shiftDown, a, b[..|b| - 1]);
    } else {
      assert a + b == a;
    }
  }

  /**
   * `key_down`: what the engine sends when a key goes down. A `Shifted` key
   * is a self-contained press SHIFT, press code, release SHIFT; with a shift
   * escape the whole press is wrapped in release SHIFT ... press SHIFT.
   */
  function DownEvents(key: Key, escape: bool): (r: seq<Event>)
    ensures Press(key.code) in r
    ensures escape ==> |r| >= 3 && r[0] == Release(SHIFT) && r[|r| - 1] == Press(SHIFT)
    ensures escape ==> r[1..|r| - 1] == DownEvents(key, false)
  {
    var press := match key
      case Shifted(c) => [Press(SHIFT), Press(c), Release(SHIFT)]
      case Plain(c) => [Press(c)];
    if escape then [Release(SHIFT)] + press + [Press(SHIFT)] else press
  }

  /** `key_up`: release SHIFT then the code for a `Shifted` key, else release the code. */
  function UpEvents(key: Key): (r: seq<Event>)
    ensures |r| >= 1 && r[|r| - 1] == Release(key.code)
    ensures forall i :: 0 <= i < |r| ==> r[i].Release?
    ensures key.Shifted? ==> r[0] == Release(SHIFT)
  {
    match key
    case Shifted(c) => [Release(SHIFT), Release(c)]
    case Plain(c) => [Release(c)]
  }

  /**
   * The shift flag after a key goes down: an escape restores shift to down
   * (it was down, or there would be no escape); an unescaped `Shifted` key
   * leaves it up; a plain key changes it only if it is SHIFT itself.
   */
  lemma DownEventsShift(shiftDown: bool, key: Key, escape: bool)
    ensures ShiftAfter(shiftDown, DownEvents(key, escape)) ==
      if escape then true
      else if key.Shifted? then false
      else if key.code == SHIFT then true
      else shiftDown
  {
  }

  /** After a key goes up shift is up if the key took part in SHIFT, else unchanged. */
  lemma UpEventsShift(shiftDown: bool, key: Key)
    ensures ShiftAfter(shiftDown, UpEvents(key)) ==
      if key.Shifted? || key.code == SHIFT then false else shiftDown
  {
  }

  /**
   * `HIDKeyboard`: forwards presses and releases and tracks whether SHIFT
   * is down. Its invariant is that the flag is what the log implies.
   */
  class HidKeyboard {
    var shiftDown: bool
    var log: seq<Event>

    ghost predicate Valid()
      reads this
    {
      shiftDown == ShiftAfter(false, log)
    }

    constructor ()
      ensures Valid() && !shiftDown && log == []
    {
      shiftDown := false;
      log := [];
    }

    /** `key_press` for a keycode. */
    method KeyPress(code: Keycode)
      requires Valid()
      modifies this
      ensures Valid()
      ensures log == old(log) + [Press(code)]
      ensures shiftDown == if code == SHIFT then true else old(shiftDown)
    {
      log := log + [Press(code)];
      if code == SHIFT {
        shiftDown := true;
      }
    }

    /** `key_release`. */
    method KeyRelease(code: Keycode)
      requires Valid()
      modifies this
      ensures Valid()
      ensures log == old(log) + [Release(code)]
      ensures shiftDown == if code == SHIFT then false else old(shiftDown)
    {
      log := log + [Release(code)];
      if code == SHIFT {
        shiftDown := false;
      }
    }
  }
}
