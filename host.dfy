/** The emulator host in src/main.cpp: the LCD pixel buffer and icon flags
    the emulator writes through its HAL, the button states it reads back,
    and the input loop that turns encoder steps and the push switch into a
    single current button. */
module Host {
  import opened Units

  /** Emulator screen and button constants (fixed by the emulator library,
      which is not part of this model). */
  const LCD_WIDTH: int := 32
  const LCD_HEIGHT: int := 16
  const ROW_BYTES: int := 4
  const ICON_NUM: int := 8
  const BTN_LEFT: int := 0
  const BTN_MIDDLE: int := 1
  const BTN_RIGHT: int := 2
  const NO_BUTTON: int := -1
  const BUTTON_COUNT: int := 3
  const DEBOUNCE_MS: int := 50

  // ---------------------------------------------------------------- pixels

  /** `0x80 >> bit`: the most significant bit is the leftmost pixel. */
  function Mask(bit: int): (m: bv8)
    requires 0 <= bit < 8
    ensures m != 0
  {
    (0x80 as bv8) >> bit
  }

  lemma {:induction false} MasksDisjoint(i: int, j: int)
    requires 0 <= i < 8 && 0 <= j < 8 && i != j
    ensures Mask(i) & Mask(j) == 0
  {
    assert i == 0 || i == 1 || i == 2 || i == 3 || i == 4 || i == 5 || i == 6 || i == 7;
  }

  /** One byte of the buffer after pixel `bit` is set (`val`) or cleared. */
  function WriteBit(b: bv8, bit: int, val: bool): (r: bv8)
    requires 0 <= bit < 8
    ensures (r & Mask(bit) != 0) == val
    ensures forall j :: 0 <= j < 8 && j != bit ==> r & Mask(j) == b & Mask(j)
  {
    forall j | 0 <= j < 8 && j != bit
      ensures (b | Mask(bit)) & Mask(j) == b & Mask(j)
      ensures (b & !Mask(bit)) & Mask(j) == b & Mask(j)
    {
      MasksDisjoint(bit, j);
    }
    if val then b | Mask(bit) else b & !Mask(bit)
  }

  /** The read-modify-write of one buffer byte in `hal_set_lcd_matrix`. */
  method SetOrClear(b: bv8, bit: int, val: bool) returns (r: bv8)
    requires 0 <= bit < 8
    ensures r == WriteBit(b, bit, val)
  {
    var mask := (0x80 as bv8) >> bit;
    if val {
      r := b | mask;
    } else {
      r := b & !mask;
    }
  }

  /** The pixel test of the renderer. */
  function PixelOn(row: seq<bv8>, x: int): (on: bool)
    requires 0 <= x < LCD_WIDTH && |row| == ROW_BYTES
    ensures row[x / 8] == 0 ==> !on
    ensures row[x / 8] == 0xFF ==> on
  {
    row[x / 8] & Mask(x % 8) != 0
  }

  /** A row after `hal_set_lcd_matrix` at column `x`: the pixel reads back
      `val`, every other pixel of the row keeps its value. */
  function WriteRow(row: seq<bv8>, x: int, val: bool): (r: seq<bv8>)
    requires 0 <= x < LCD_WIDTH && |row| == ROW_BYTES
    ensures |r| == ROW_BYTES
    ensures PixelOn(r, x) == val
    ensures forall x' :: 0 <= x' < LCD_WIDTH && x' != x ==> PixelOn(r, x') == PixelOn(row, x')
  {
    var r := row[x / 8 := WriteBit(row[x / 8], x % 8, val)];
    forall x' | 0 <= x' < LCD_WIDTH && x' != x
      ensures PixelOn(r, x') == PixelOn(row, x')
    {
      OtherPixelKept(row, x, val, x');
    }
    r
  }

  /** Writing one pixel leaves any other pixel of the row as it was. */
  lemma OtherPixelKept(row: seq<bv8>, x: int, val: bool, x': int)
    requires 0 <= x < LCD_WIDTH && 0 <= x' < LCD_WIDTH && x != x' && |row| == ROW_BYTES
    ensures PixelOn(row[x / 8 := WriteBit(row[x / 8], x % 8, val)], x') == PixelOn(row, x')
  {
    var r := row[x / 8 := WriteBit(row[x / 8], x % 8, val)];
    if x' / 8 == x / 8 {
      SameByteOtherBit(x, x');
      assert r[x' / 8] & Mask(x' % 8) == row[x' / 8] & Mask(x' % 8);
    } else {
      assert r[x' / 8] == row[x' / 8];
    }
  }

  /** Two different pixels in the same byte are different bits of it. */
  lemma SameByteOtherBit(x: int, x': int)
    requires 0 <= x && 0 <= x' && x != x' && x / 8 == x' / 8
    ensures x % 8 != x' % 8
  {
    assert x == 8 * (x / 8) + x % 8 && x' == 8 * (x' / 8) + x' % 8;
  }

  /** The emulator-facing buffers: `g_matrix` (one bit per pixel, eight
      pixels per byte) and `g_icons`. */
  class Lcd {
    const matrix: array2<bv8>
    const icons: array<bool>

    ghost predicate Valid()
      reads this
    {
      matrix.Length0 == LCD_HEIGHT && matrix.Length1 == ROW_BYTES && icons.Length == ICON_NUM
    }

    function Row(y: int): (r: seq<bv8>)
      requires Valid() && 0 <= y < LCD_HEIGHT
      reads this, matrix
      ensures |r| == ROW_BYTES
    {
      [matrix[y, 0], matrix[y, 1], matrix[y, 2], matrix[y, 3]]
    }

    constructor ()
      ensures Valid() && fresh(matrix) && fresh(icons)
      ensures forall y, b :: 0 <= y < LCD_HEIGHT && 0 <= b < ROW_BYTES ==> matrix[y, b] == 0
      ensures forall i :: 0 <= i < ICON_NUM ==> !icons[i]
    {
      matrix := new bv8[LCD_HEIGHT, ROW_BYTES]((_, _) => 0);
      icons := new bool[ICON_NUM](_ => false);
    }

    /** `hal_set_lcd_matrix`: coordinates outside the screen are ignored. */
    method SetMatrix(x: byte, y: byte, val: bool)
      requires Valid()
      modifies matrix
      ensures x >= LCD_WIDTH || y >= LCD_HEIGHT ==> unchanged(matrix)
      ensures x < LCD_WIDTH && y < LCD_HEIGHT ==>
                && Row(y) == WriteRow(old(Row(y)), x, val)
                && forall y', b :: 0 <= y' < LCD_HEIGHT && y' != y && 0 <= b < ROW_BYTES ==>
                     matrix[y', b] == old(matrix[y', b])
    {
      if x >= LCD_WIDTH || y >= LCD_HEIGHT {
        return;
      }
      var byteIdx := x / 8;
      var bitIdx := x % 8;
      ghost var before := Row(y);
      var updated := SetOrClear(matrix[y, byteIdx], bitIdx, val);
      matrix[y, byteIdx] := updated;
      assert Row(y) == before[byteIdx := updated];
    }

    /** `hal_set_lcd_icon`: out-of-range icons are ignored. */
    method SetIcon(icon: byte, val: bool)
      requires Valid()
      modifies icons
      ensures icon >= ICON_NUM ==> unchanged(icons)
      ensures icon < ICON_NUM ==> icons[..] == old(icons[..])[icon := val]
    {
      if icon < ICON_NUM {
        icons[icon] := val;
      }
    }
  }

  // ---------------------------------------------------------------- buttons

  /** The states `hal_handler` reports for BTN_LEFT, BTN_MIDDLE, BTN_RIGHT. */
  function ButtonStates(current: int): (pressed: seq<bool>)
    ensures |pressed| == BUTTON_COUNT
    ensures forall i :: 0 <= i < BUTTON_COUNT ==> (pressed[i] <==> i == current)
    ensures forall i, j :: 0 <= i < j < BUTTON_COUNT ==> !(pressed[i] && pressed[j])
    ensures current == NO_BUTTON ==> forall i :: 0 <= i < BUTTON_COUNT ==> !pressed[i]
  {
    [current == BTN_LEFT, current == BTN_MIDDLE, current == BTN_RIGHT]
  }

  datatype Input = Input(currentBtn: int, lastBtnTime: u32, lastSw: bool)

  predicate IsButton(b: int) {
    b == NO_BUTTON || b == BTN_LEFT || b == BTN_MIDDLE || b == BTN_RIGHT
  }

  /** One `updateInput` after the debounce gate has let it through:
      `steps` is what was drained from the step cell and `sw` the level
      of the push switch (HIGH = released). */
  function InputStep(s: Input, steps: int, sw: bool, nowMs: u32): (t: Input)
    ensures IsButton(s.currentBtn) ==> IsButton(t.currentBtn)
    ensures t.lastSw == sw
    ensures !sw && s.lastSw ==> t.currentBtn == BTN_MIDDLE && t.lastBtnTime == nowMs
    ensures !(!sw && s.lastSw) && steps > 0 ==> t.currentBtn == BTN_RIGHT && t.lastBtnTime == nowMs
    ensures !(!sw && s.lastSw) && steps < 0 ==> t.currentBtn == BTN_LEFT && t.lastBtnTime == nowMs
    ensures steps == 0 && !(!sw && s.lastSw) ==>
              && t.lastBtnTime == s.lastBtnTime
              && (t.currentBtn == NO_BUTTON <==> (s.currentBtn == NO_BUTTON || Elapsed(nowMs, s.lastBtnTime) > DEBOUNCE_MS))
              && (t.currentBtn != NO_BUTTON ==> t.currentBtn == s.currentBtn)
  {
    var a := if steps > 0 then s.(currentBtn := BTN_RIGHT, lastBtnTime := nowMs)
             else if steps < 0 then s.(currentBtn := BTN_LEFT, lastBtnTime := nowMs)
             else s;
    var b := if !sw && s.lastSw then a.(currentBtn := BTN_MIDDLE, lastBtnTime := nowMs) else a;
    var c := b.(lastSw := sw);
    if Elapsed(nowMs, c.lastBtnTime) > DEBOUNCE_MS then c.(currentBtn := NO_BUTTON) else c
  }

  /** A press held as the current button stays exactly DEBOUNCE_MS and is
      cleared by the first quiet call after that. */
  lemma {:induction false} PressClearedAfterDebounce(s: Input, nowMs: u32)
    requires s.lastSw && s.currentBtn == BTN_RIGHT
    requires Elapsed(nowMs, s.lastBtnTime) == DEBOUNCE_MS
    ensures InputStep(s, 0, true, nowMs).currentBtn == BTN_RIGHT
    ensures Elapsed((nowMs + 1) % U32_MOD, s.lastBtnTime) > DEBOUNCE_MS
    ensures InputStep(s, 0, true, (nowMs + 1) % U32_MOD).currentBtn == NO_BUTTON
  {
    assert (s.lastBtnTime + DEBOUNCE_MS) % U32_MOD == nowMs;
  }

  /** The input state of src/main.cpp: `g_currentBtn`, `g_lastBtnTime`
      and the function-static `lastSw`, which starts HIGH. */
  class Buttons {
    var currentBtn: int
    var lastBtnTime: u32
    var lastSw: bool

    function State(): Input
      reads this
    {
      Input(currentBtn, lastBtnTime, lastSw)
    }

    constructor ()
      ensures State() == Input(NO_BUTTON, 0, true)
    {
      currentBtn, lastBtnTime, lastSw := NO_BUTTON, 0, true;
    }

    /** `hal_handler`: report the button states; the emulator continues (0). */
    method Handler() returns (pressed: seq<bool>, status: int)
      ensures pressed == ButtonStates(currentBtn)
      ensures IsButton(currentBtn) ==> forall i :: 0 <= i < BUTTON_COUNT && pressed[i] ==> i == currentBtn
      ensures status == 0
    {
      pressed := [currentBtn == BTN_LEFT, currentBtn == BTN_MIDDLE, currentBtn == BTN_RIGHT];
      status := 0;
    }

    /** `updateInput`. Within DEBOUNCE_MS of the last button event nothing
      happens, the step cell included; otherwise the cell is drained and
      the state advances by `InputStep`. */
    method UpdateInput(nowMs: u32, sw: bool, cell: StepAccumulator)
      modifies this, cell
      ensures Elapsed(nowMs, old(lastBtnTime)) < DEBOUNCE_MS ==> unchanged(this) && unchanged(cell)
      ensures Elapsed(nowMs, old(lastBtnTime)) >= DEBOUNCE_MS ==>
                State() == InputStep(old(State()), old(cell.value), sw, nowMs) && cell.value == 0
    {
      if Elapsed(nowMs, lastBtnTime) < DEBOUNCE_MS {
        return;
      }
      var steps := cell.Drain();
      if steps > 0 {
        currentBtn := BTN_RIGHT;
        lastBtnTime := nowMs;
      } else if steps < 0 {
        currentBtn := BTN_LEFT;
        lastBtnTime := nowMs;
      }
      if !sw && lastSw {
        currentBtn := BTN_MIDDLE;
        lastBtnTime := nowMs;
      }
      lastSw := sw;
      if Elapsed(nowMs, lastBtnTime) > DEBOUNCE_MS {
        currentBtn := NO_BUTTON;
      }
    }
  }
}
