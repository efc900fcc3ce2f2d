/**
 * Key identities of the BBC Micro keyboard matrix: the keycodes sent to the
 * host, the key specifications held in the static key table, the table
 * itself, and the resolution of a specification against the live shift state.
 */
module Keys {

  datatype Option<+T> = None | Some(value: T)

  /** A USB HID keyboard usage code (Keyboard/Keypad page 0x07). */
  newtype Keycode = x: int | 0 <= x < 256

  // The usage codes the table refers to, with the values of the USB HID
  // Usage Tables, Keyboard/Keypad page (the values adafruit_hid uses).
  const A: Keycode := 0x04
  const B: Keycode := 0x05
  const C: Keycode := 0x06
  const D: Keycode := 0x07
  const E: Keycode := 0x08
  const F: Keycode := 0x09
  const G: Keycode := 0x0A
  const H: Keycode := 0x0B
  const I: Keycode := 0x0C
  const J: Keycode := 0x0D
  const K: Keycode := 0x0E
  const L: Keycode := 0x0F
  const M: Keycode := 0x10
  const N: Keycode := 0x11
  const O: Keycode := 0x12
  const P: Keycode := 0x13
  const Q: Keycode := 0x14
  const R: Keycode := 0x15
  const S: Keycode := 0x16
  const T: Keycode := 0x17
  const U: Keycode := 0x18
  const V: Keycode := 0x19
  const W: Keycode := 0x1A
  const X: Keycode := 0x1B
  const Y: Keycode := 0x1C
  const Z: Keycode := 0x1D
  const ONE: Keycode := 0x1E
  const TWO: Keycode := 0x1F
  const THREE: Keycode := 0x20
  const FOUR: Keycode := 0x21
  const FIVE: Keycode := 0x22
  const SIX: Keycode := 0x23
  const SEVEN: Keycode := 0x24
  const EIGHT: Keycode := 0x25
  const NINE: Keycode := 0x26
  const ZERO: Keycode := 0x27
  const RETURN: Keycode := 0x28
  const ESCAPE: Keycode := 0x29
  const BACKSPACE: Keycode := 0x2A
  const TAB: Keycode := 0x2B
  const SPACEBAR: Keycode := 0x2C
  const MINUS: Keycode := 0x2D
  const EQUALS: Keycode := 0x2E
  const LEFT_BRACKET: Keycode := 0x2F
  const RIGHT_BRACKET: Keycode := 0x30
  const BACKSLASH: Keycode := 0x31
  const POUND: Keycode := 0x32
  const SEMICOLON: Keycode := 0x33
  const QUOTE: Keycode := 0x34
  const COMMA: Keycode := 0x36
  const PERIOD: Keycode := 0x37
  const FORWARD_SLASH: Keycode := 0x38
  const CAPS_LOCK: Keycode := 0x39
  const F1: Keycode := 0x3A
  const F2: Keycode := 0x3B
  const F3: Keycode := 0x3C
  const F4: Keycode := 0x3D
  const F5: Keycode := 0x3E
  const F6: Keycode := 0x3F
  const F7: Keycode := 0x40
  const F8: Keycode := 0x41
  const F9: Keycode := 0x42
  const F10: Keycode := 0x43
  const DELETE: Keycode := 0x4C
  const RIGHT_ARROW: Keycode := 0x4F
  const LEFT_ARROW: Keycode := 0x50
  const DOWN_ARROW: Keycode := 0x51
  const UP_ARROW: Keycode := 0x52
  const KEYPAD_ASTERISK: Keycode := 0x55
  const LEFT_CONTROL: Keycode := 0xE0
  const SHIFT: Keycode := 0xE1
  const ALT: Keycode := 0xE2
  const WINDOWS: Keycode := 0xE3

  /**
   * A resolved key: what the debounce engine queues and what it presses
   * and releases. `Shifted(c)` stands for the source's `Shifted` wrapper,
   * a base key that pretends to be its shifted symbol.
   */
  datatype Key = Plain(code: Keycode) | Shifted(code: Keycode)

  /**
   * A key-table entry: either one key, or an `AltShift` whose meaning
   * depends on whether shift is down when the key is observed.
   */
  datatype KeySpec = Fixed(key: Key) | AltShift(key: Key, altKey: Key)

  /** A matrix coordinate, (row, column). */
  type Coord = (int, int)

  /** The keys a specification can resolve to, primary first. */
  function Branches(spec: KeySpec): (r: seq<Key>)
    ensures 1 <= |r| <= 2 && r[0] == spec.key
    ensures |r| == 2 <==> spec.AltShift?
    ensures spec.AltShift? ==> r[1] == spec.altKey
  {
    match spec
    case Fixed(k) => [k]
    case AltShift(k, alt) => [k, alt]
  }

  /**
   * Python truthiness of a table value: a plain keycode is falsy when it
   * is 0, a `Shifted` or `AltShift` object is always truthy.
   */
  predicate Truthy(spec: KeySpec)
  {
    !(spec.Fixed? && spec.key.Plain? && spec.key.code == 0)
  }

  /**
   * The static key table, `keys[row][column]`: one row of the table for
   * each of the eight matrix rows, None for a cell with no key (the lookup
   * error the source catches).
   */
  function Lookup(row: int, column: int): (r: Option<KeySpec>)
    ensures r.Some? ==> 0 <= row < 8 && 0 <= column < 10
  {
    match row
    case 0 => Row0(column)
    case 1 => Row1(column)
    case 2 => Row2(column)
    case 3 => Row3(column)
    case 4 => Row4(column)
    case 5 => Row5(column)
    case 6 => Row6(column)
    case 7 => Row7(column)
    case _ => None
  }

  function Row0(column: int): Option<KeySpec>
  {
    match column
    case 0 => Some(Fixed(Plain(SHIFT)))
    case 1 => Some(Fixed(Plain(LEFT_CONTROL)))
    case _ => None
  }

  function Row1(column: int): Option<KeySpec>
  {
    match column
    case 0 => Some(Fixed(Plain(Q)))
    case 1 => Some(AltShift(Plain(THREE), Plain(POUND)))
    case 2 => Some(Fixed(Plain(FOUR)))
    case 3 => Some(Fixed(Plain(FIVE)))
    case 4 => Some(Fixed(Plain(F5)))
    case 5 => Some(AltShift(Plain(EIGHT), Shifted(NINE)))
    case 6 => Some(Fixed(Plain(F8)))
    case 7 => Some(AltShift(Plain(MINUS), Plain(EQUALS)))
    case 8 => Some(AltShift(Shifted(SIX), Shifted(POUND)))
    case 9 => Some(Fixed(Plain(LEFT_ARROW)))
    case _ => None
  }

  function Row2(column: int): Option<KeySpec>
  {
    match column
    case 0 => Some(Fixed(Plain(F1)))
    case 1 => Some(Fixed(Plain(W)))
    case 2 => Some(Fixed(Plain(E)))
    case 3 => Some(Fixed(Plain(T)))
    case 4 => Some(AltShift(Plain(SEVEN), Plain(QUOTE)))
    case 5 => Some(Fixed(Plain(I)))
    case 6 => Some(AltShift(Plain(NINE), Shifted(ZERO)))
    case 7 => Some(Fixed(Plain(ZERO)))
    case 8 => Some(AltShift(Shifted(MINUS), Shifted(THREE)))
    case 9 => Some(Fixed(Plain(DOWN_ARROW)))
    case _ => None
  }

  function Row3(column: int): Option<KeySpec>
  {
    match column
    case 0 => Some(Fixed(Plain(ONE)))
    case 1 => Some(Fixed(Plain(TWO)))
    case 2 => Some(Fixed(Plain(D)))
    case 3 => Some(Fixed(Plain(R)))
    case 4 => Some(AltShift(Plain(SIX), Shifted(SEVEN)))
    case 5 => Some(Fixed(Plain(U)))
    case 6 => Some(Fixed(Plain(O)))
    case 7 => Some(Fixed(Plain(P)))
    case 8 => Some(Fixed(Plain(LEFT_BRACKET)))
    case 9 => Some(Fixed(Plain(UP_ARROW)))
    case _ => None
  }

  function Row4(column: int): Option<KeySpec>
  {
    match column
    case 0 => Some(Fixed(Plain(CAPS_LOCK)))
    case 1 => Some(Fixed(Plain(A)))
    case 2 => Some(Fixed(Plain(X)))
    case 3 => Some(Fixed(Plain(F)))
    case 4 => Some(Fixed(Plain(Y)))
    case 5 => Some(Fixed(Plain(J)))
    case 6 => Some(Fixed(Plain(K)))
    case 7 => Some(Fixed(Shifted(QUOTE)))
    case 8 => Some(AltShift(Plain(KEYPAD_ASTERISK), Shifted(SEMICOLON)))
    case 9 => Some(Fixed(Plain(RETURN)))
    case _ => None
  }

  function Row5(column: int): Option<KeySpec>
  {
    match column
    case 0 => Some(Fixed(Plain(ALT)))
    case 1 => Some(Fixed(Plain(S)))
    case 2 => Some(Fixed(Plain(C)))
    case 3 => Some(Fixed(Plain(G)))
    case 4 => Some(Fixed(Plain(H)))
    case 5 => Some(Fixed(Plain(N)))
    case 6 => Some(Fixed(Plain(L)))
    case 7 => Some(AltShift(Plain(SEMICOLON), Shifted(EQUALS)))
    case 8 => Some(Fixed(Plain(RIGHT_BRACKET)))
    case 9 => Some(Fixed(Plain(DELETE)))
    case _ => None
  }

  function Row6(column: int): Option<KeySpec>
  {
    match column
    case 0 => Some(Fixed(Plain(TAB)))
    case 1 => Some(Fixed(Plain(Z)))
    case 2 => Some(Fixed(Plain(SPACEBAR)))
    case 3 => Some(Fixed(Plain(V)))
    case 4 => Some(Fixed(Plain(B)))
    case 5 => Some(Fixed(Plain(M)))
    case 6 => Some(Fixed(Plain(COMMA)))
    case 7 => Some(Fixed(Plain(PERIOD)))
    case 8 => Some(Fixed(Plain(FORWARD_SLASH)))
    case 9 => Some(Fixed(Plain(WINDOWS)))
    case _ => None
  }

  function Row7(column: int): Option<KeySpec>
  {
    match column
    case 0 => Some(Fixed(Plain(ESCAPE)))
    case 1 => Some(Fixed(Plain(F2)))
    case 2 => Some(Fixed(Plain(F3)))
    case 3 => Some(Fixed(Plain(F4)))
    case 4 => Some(Fixed(Plain(F6)))
    case 5 => Some(Fixed(Plain(F7)))
    case 6 => Some(Fixed(Plain(F9)))
    case 7 => Some(Fixed(Plain(F10)))
    case 8 => Some(Fixed(Plain(BACKSLASH)))
    case 9 => Some(Fixed(Plain(RIGHT_ARROW)))
    case _ => None
  }

  /**
   * What `SoftwareScan.process` hands to the debounce engine for a
   * coordinate: the table entry when there is one and it is truthy.
   */
  function Forwarded(row: int, column: int): (r: Option<KeySpec>)
    ensures r.Some? ==> Lookup(row, column) == r && Truthy(r.value)
    ensures Lookup(row, column).Some? && Truthy(Lookup(row, column).value) ==> r.Some?
  {
    match Lookup(row, column)
    case None => None
    case Some(spec) => if Truthy(spec) then Some(spec) else None
  }

  /**
   * Resolution of a specification at observation time: an `AltShift`
   * becomes its alternate key, with a shift escape, when shift is down,
   * and its primary key otherwise; a fixed key passes through unescaped.
   */
  function Resolve(spec: KeySpec, shiftDown: bool): (r: (Key, bool))
    ensures r.1 <==> spec.AltShift? && shiftDown
    ensures r.0 in Branches(spec)
    ensures r.0 == Branches(spec)[if r.1 then 1 else 0]
  {
    match spec
    case Fixed(k) => (k, false)
    case AltShift(k, alt) => if shiftDown then (alt, true) else (k, false)
  }

  /** Every table entry is truthy, so process forwards exactly the mapped cells. */
  lemma ForwardedIsLookup(row: int, column: int)
    ensures Forwarded(row, column) == Lookup(row, column)
  {
  }

  /** P at row 3 column 7; nothing at (0, 5). */
  lemma ExampleCells()
    ensures Forwarded(3, 7) == Some(Fixed(Plain(P)))
    ensures Forwarded(0, 5) == None
  {
  }

  /**
   * No branch of an `AltShift` entry is the shift key itself, so resolving
   * and pressing an `AltShift` never changes what shift means.
   */
  lemma AltShiftBranchesAreNotShift(row: int, column: int)
    requires Lookup(row, column).Some? && Lookup(row, column).value.AltShift?
    ensures Lookup(row, column).value.key != Plain(SHIFT)
    ensures Lookup(row, column).value.altKey != Plain(SHIFT)
  {
  }

  /**
   * The one site of each `Shifted` key of the table: its cell and which
   * branch of the specification (0 primary, 1 alternate) holds it.
   */
  function ShiftedSite(code: Keycode): Option<(Coord, int)>
  {
    if code == SEVEN then Some(((3, 4), 1))
    else if code == NINE then Some(((1, 5), 1))
    else if code == ZERO then Some(((2, 6), 1))
    else if code == SIX then Some(((1, 8), 0))
    else if code == POUND then Some(((1, 8), 1))
    else if code == QUOTE then Some(((4, 7), 0))
    else if code == MINUS then Some(((2, 8), 0))
    else if code == THREE then Some(((2, 8), 1))
    else if code == EQUALS then Some(((5, 7), 1))
    else if code == SEMICOLON then Some(((4, 8), 1))
    else None
  }

  lemma SitesOfShifted(row: int, column: int, b: nat)
    requires Lookup(row, column).Some? && b < |Branches(Lookup(row, column).value)|
    requires Branches(Lookup(row, column).value)[b].Shifted?
    ensures ShiftedSite(Branches(Lookup(row, column).value)[b].code) == Some(((row, column), b))
  {
  }

  /**
   * Every `Shifted` key in the table is the only one with its code. The
   * source compares `Shifted` objects by identity and the model compares
   * keys by value; on this table the two agree.
   */
  lemma ShiftedKeysAreUnique(r1: int, c1: int, b1: nat, r2: int, c2: int, b2: nat)
    requires Lookup(r1, c1).Some? && b1 < |Branches(Lookup(r1, c1).value)|
    requires Lookup(r2, c2).Some? && b2 < |Branches(Lookup(r2, c2).value)|
    requires Branches(Lookup(r1, c1).value)[b1].Shifted?
    requires Branches(Lookup(r1, c1).value)[b1] == Branches(Lookup(r2, c2).value)[b2]
    ensures r1 == r2 && c1 == c2 && b1 == b2
  {
    SitesOfShifted(r1, c1, b1);
    SitesOfShifted(r2, c2, b2);
  }
}
