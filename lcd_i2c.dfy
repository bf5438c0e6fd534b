/**
 * The optional 16x2 character LCD on the I2C bus: its setup in one of two
 * modes (a level bar for the open drawer, or the serial messages sent to
 * the hub), the level bar made of custom glyphs, the percentage shown
 * beside it, and the slots of the serial line.
 *
 * The display driver is abstracted as a grid of character codes with a
 * cursor and a table of eight custom glyphs; the module's static flags
 * live in the same object.
 */
module LcdI2c {
  import opened CInt

  const LCD_COLS: int := 16
  const LCD_LINES: int := 2

  /** Three bar steps per cell: the largest level the bar can show. */
  const BAR_MAX: int := 3 * LCD_COLS

  /** Character code of a blank cell. */
  const SPACE: int := ' ' as int

  const BLANK_LINE: seq<int> := seq(LCD_COLS, _ => SPACE)

  // ---------------------------------------------------------------------
  // Text and lines

  /** The character codes of a string. */
  function Codes(s: seq<char>): (r: seq<int>)
    ensures |r| == |s| && forall k :: 0 <= k < |s| ==> r[k] == s[k] as int
  {
    seq(|s|, k requires 0 <= k < |s| => s[k] as int)
  }

  /**
   * A line after writing `codes` from column `col` on: the cells the text
   * covers take its codes, cells before it and text beyond the last
   * column are not touched.
   */
  function Put(line: seq<int>, col: int, codes: seq<int>): (r: seq<int>)
    ensures |r| == |line|
    ensures forall j :: 0 <= j < |line| && !(col <= j < col + |codes|) ==> r[j] == line[j]
    ensures forall j :: 0 <= j < |line| && col <= j < col + |codes| ==> r[j] == codes[j - col]
  {
    seq(|line|, j requires 0 <= j < |line| => if col <= j < col + |codes| then codes[j - col] else line[j])
  }

  /** Writing a text and then one more code right after it is writing the longer text. */
  lemma PutAppend(line: seq<int>, col: int, codes: seq<int>, code: int)
    ensures Put(Put(line, col, codes), col + |codes|, [code]) == Put(line, col, codes + [code])
  {
  }

  /** A text that starts at column 0 and covers the whole line replaces it. */
  lemma PutWhole(line: seq<int>, codes: seq<int>)
    requires |codes| == |line|
    ensures Put(line, 0, codes) == codes
  {
  }

  // ---------------------------------------------------------------------
  // Decimal numbers, as the display's `print` writes them

  function DigitChar(d: int): (c: char)
    requires 0 <= d <= 9
    ensures '0' <= c <= '9' && (c as int) - ('0' as int) == d
  {
    (('0' as int) + d) as char
  }

  /** The decimal digits of `n`, most significant first, with no leading zero. */
  function NatText(n: nat): (s: seq<char>)
    ensures 1 <= |s|
    ensures forall k :: 0 <= k < |s| ==> '0' <= s[k] <= '9'
    ensures n < 10 ==> s == [DigitChar(n)]
    ensures n >= 10 ==> s[0] != '0'
  {
    if n < 10 then [DigitChar(n)] else NatText(n / 10) + [DigitChar(n % 10)]
  }

  /** A signed number: a minus sign before the digits of its magnitude. */
  function IntText(n: int): (s: seq<char>)
    ensures n >= 0 ==> s == NatText(n)
    ensures n < 0 ==> s == ['-'] + NatText(-n)
  {
    if n < 0 then ['-'] + NatText(-n) else NatText(n)
  }

  /** The value of an optionally signed string of decimal digits. */
  function SignedValue(s: seq<char>): int
  {
    if |s| > 0 && s[0] == '-' then -DigitsValue(s[1..]) else DigitsValue(s)
  }

  /** The value of a string of decimal digits. */
  function DigitsValue(s: seq<char>): int
  {
    if s == [] then 0 else 10 * DigitsValue(s[..|s| - 1]) + ((s[|s| - 1] as int) - ('0' as int))
  }

  /** Reading back the digits that `NatText` writes gives the number. */
  lemma {:induction false} NatTextRoundTrip(n: nat)
    ensures DigitsValue(NatText(n)) == n
  {
    if n >= 10 {
      var s := NatText(n);
      assert s[..|s| - 1] == NatText(n / 10);
      NatTextRoundTrip(n / 10);
    }
  }

  /** Reading back what `IntText` writes, sign included, gives the number. */
  lemma {:induction false} IntTextRoundTrip(n: int)
    ensures SignedValue(IntText(n)) == n
  {
    if n < 0 {
      var t := NatText(-n);
      assert IntText(n) == ['-'] + t;
      assert (['-'] + t)[1..] == t;
      NatTextRoundTrip(-n);
    } else {
      var t := NatText(n);
      assert IntText(n) == t && '0' <= t[0] <= '9';
      NatTextRoundTrip(n);
    }
  }

  // ---------------------------------------------------------------------
  // The level bar

  /**
   * The glyph code of cell `i` of a bar showing `level`: full cells ('!!!',
   * code 3) first, then one cell holding the remainder (code 0, 1 or 2),
   * then empty cells.
   */
  function BarCell(level: int, i: int): int
    requires 0 <= level <= BAR_MAX
  {
    if i < level / 3 then 3 else if i == level / 3 then level % 3 else 0
  }

  /** The whole bar line for a level in 0..48. */
  function BarRow(level: int): (row: seq<int>)
    requires 0 <= level <= BAR_MAX
    ensures |row| == LCD_COLS
    ensures forall i :: 0 <= i < LCD_COLS ==> 0 <= row[i] <= 3
  {
    seq(LCD_COLS, i requires 0 <= i < LCD_COLS => BarCell(level, i))
  }

  /** Cell `i` holds three steps, or what is left of the level after the `i` cells before it. */
  lemma BarCellOfRemainder(level: int, i: int)
    requires 0 <= level <= BAR_MAX && 0 <= i
    ensures BarCell(level, i) == Min(3, if 3 * i <= level then level - 3 * i else 0)
  {
    assert level == 3 * (level / 3) + level % 3;
  }

  /** The sum of a line's glyph codes: the number of bar steps it shows. */
  function Sum(s: seq<int>): int
  {
    if s == [] then 0 else Sum(s[..|s| - 1]) + s[|s| - 1]
  }

  function Min(a: int, b: int): int
  {
    if a <= b then a else b
  }

  /** The first `n` cells of a bar hold `level` steps, or three per cell if fewer. */
  lemma {:induction false} BarPrefixSum(level: int, n: int)
    requires 0 <= level <= BAR_MAX && 0 <= n <= LCD_COLS
    ensures Sum(BarRow(level)[..n]) == Min(level, 3 * n)
  {
    if n > 0 {
      var row := BarRow(level);
      assert row[..n][..n - 1] == row[..n - 1];
      BarPrefixSum(level, n - 1);
      assert level == 3 * (level / 3) + level % 3;
    }
  }

  /** Conservation: the cells of a bar add up to exactly its level. */
  lemma BarRowSum(level: int)
    requires 0 <= level <= BAR_MAX
    ensures Sum(BarRow(level)) == level
  {
    BarPrefixSum(level, LCD_COLS);
    assert BarRow(level)[..LCD_COLS] == BarRow(level);
  }

  /**
   * Shape: the cells never grow from left to right, and apart from the
   * full cells and the empty cells at most one cell is partly filled.
   */
  lemma BarRowShape(level: int)
    requires 0 <= level <= BAR_MAX
    ensures forall i, j :: 0 <= i < j < LCD_COLS ==> BarRow(level)[i] >= BarRow(level)[j]
    ensures forall i, j :: 0 <= i < j < LCD_COLS && 0 < BarRow(level)[i] < 3 ==> BarRow(level)[j] == 0
    ensures forall i :: 0 <= i < LCD_COLS ==> (BarRow(level)[i] == 3 <==> 3 * (i + 1) <= level)
  {
  }

  // ---------------------------------------------------------------------
  // Percentage beside the bar

  /** `map(percent, 0, 99, 0, 3 * LCD_COLS)`: the bar level of a percentage. */
  function PercentLevel(percent: int): (level: int)
    ensures percent == 0 ==> level == 0
    ensures percent == 99 ==> level == BAR_MAX
  {
    Map(percent, 0, 99, 0, BAR_MAX)
  }

  /** A larger percentage never gives a shorter bar, and 0..99 fills 0..48. */
  lemma PercentLevelMonotone(p1: int, p2: int)
    requires p1 <= p2
    ensures PercentLevel(p1) <= PercentLevel(p2)
    ensures 0 <= p1 && p2 <= 99 ==> 0 <= PercentLevel(p1) && PercentLevel(p2) <= BAR_MAX
  {
    DivMonotone(p1 * BAR_MAX, p2 * BAR_MAX, 99);
    if 0 <= p1 && p2 <= 99 {
      DivMonotone(0, p1 * BAR_MAX, 99);
      DivMonotone(p2 * BAR_MAX, 99 * BAR_MAX, 99);
      DivOfMultiple(BAR_MAX, 99);
    }
  }

  /** Where the two digits go: at the end while the bar is short, otherwise at the start. */
  function DigitsColumn(level: int): (col: int)
    ensures col == 0 || col == LCD_COLS - 2
    ensures col == LCD_COLS - 2 <==> level < 28
  {
    if level < (BAR_MAX / 10) * 7 then LCD_COLS - 2 else 0
  }

  /** The digits go at the end exactly for the percentages 0..57. */
  lemma DigitsColumnThreshold(percent: int)
    requires 0 <= percent <= 99
    ensures DigitsColumn(PercentLevel(percent)) == LCD_COLS - 2 <==> percent <= 57
  {
    assert PercentLevel(57) == 27;
    assert PercentLevel(58) == 28;
    if percent <= 57 {
      PercentLevelMonotone(percent, 57);
    } else {
      PercentLevelMonotone(58, percent);
    }
  }

  /** Digits placed at the end of the line cover only empty bar cells. */
  lemma DigitsHideNoBar(level: int)
    requires 0 <= level <= BAR_MAX
    requires DigitsColumn(level) == LCD_COLS - 2
    ensures BarRow(level)[LCD_COLS - 2] == 0 && BarRow(level)[LCD_COLS - 1] == 0
  {
  }

  /** The tens and the units of a percentage are single digits that give it back. */
  lemma PercentDigits(percent: int)
    requires 0 <= percent <= 99
    ensures 0 <= Div(percent, 10) <= 9 && 0 <= Rem(percent, 10) <= 9
    ensures 10 * Div(percent, 10) + Rem(percent, 10) == percent
    ensures IntText(Div(percent, 10)) + IntText(Rem(percent, 10))
            == [DigitChar(Div(percent, 10)), DigitChar(Rem(percent, 10))]
  {
    DivOfNatural(percent, 10);
  }

  /**
   * The second line after showing a percentage: the bar for its level,
   * then the tens and the units written at the digits' column.
   */
  function PercentLine(percent: int): (line: seq<int>)
    ensures |line| == LCD_COLS
  {
    var level := PercentLevel(percent);
    Put(BarRow(Constrain(level, 0, BAR_MAX)), DigitsColumn(level),
        Codes(IntText(Div(percent, 10)) + IntText(Rem(percent, 10))))
  }

  /**
   * For a percentage in 0..99 that line is the bar with two digit cells
   * replaced; at the end of the line they replace only empty cells.
   */
  lemma PercentLineShape(percent: int)
    requires 0 <= percent <= 99
    ensures var level, col := PercentLevel(percent), DigitsColumn(PercentLevel(percent));
      && 0 <= level <= BAR_MAX
      && PercentLine(percent) == BarRow(level)[col := DigitChar(Div(percent, 10)) as int][col + 1 := DigitChar(Rem(percent, 10)) as int]
      && (col == LCD_COLS - 2 ==> PercentLine(percent)[..col] == BarRow(level)[..col] && BarRow(level)[col..] == [0, 0])
  {
    var level := PercentLevel(percent);
    PercentLevelMonotone(percent, percent);
    PercentDigits(percent);
    if DigitsColumn(level) == LCD_COLS - 2 {
      DigitsHideNoBar(level);
    }
  }

  // ---------------------------------------------------------------------
  // Screen layouts written by the setup

  /** The first line in level mode; its last two characters are updated later. */
  function LevelHeader(trinketNr: int): seq<char>
  {
    "TN" + NatText(ToUint8(trinketNr)) + ": Cab/Drw= .."
  }

  /** The column of the cabinet/drawer field in level mode. */
  const POS_FIX_COL: int := 14

  /** For a one-digit unit number the header fills the line and the field is its last two cells. */
  lemma LevelHeaderFixColumn(trinketNr: int)
    requires 1 <= trinketNr <= 9
    ensures |LevelHeader(trinketNr)| == LCD_COLS
    ensures LevelHeader(trinketNr)[POS_FIX_COL..] == ".."
  {
    assert NatText(ToUint8(trinketNr)) == [DigitChar(trinketNr)];
  }

  /** The first line in serial mode: the unit number followed by the message header. */
  function SerialHeader(trinketNr: int, msgHdr: seq<char>): seq<char>
  {
    "TN" + NatText(ToUint8(trinketNr)) + msgHdr
  }

  /** The frame of the second line in serial mode. */
  const SERIAL_FRAME: seq<char> := ">..............<"

  /** `5 * nC + 1`: the first column of serial slot `nC`. */
  function SerialSlot(nC: int): int
  {
    nC * 5 + 1
  }

  /**
   * The three four-character slots do not overlap and lie on the dots of
   * the frame, between its '>' in column 0 and its '<' in column 15.
   */
  lemma SerialSlotsFit(a: int, b: int)
    requires 0 <= a < b <= 2
    ensures SerialSlot(a) + 4 <= SerialSlot(b)
    ensures |SERIAL_FRAME| == LCD_COLS && SERIAL_FRAME[0] == '>' && SERIAL_FRAME[LCD_COLS - 1] == '<'
    ensures forall c :: SerialSlot(a) <= c < SerialSlot(a) + 4 ==> 1 <= c <= 14 && SERIAL_FRAME[c] == '.'
    ensures forall c :: SerialSlot(b) <= c < SerialSlot(b) + 4 ==> 1 <= c <= 14 && SERIAL_FRAME[c] == '.'
  {
  }

  // ---------------------------------------------------------------------
  // Custom glyphs

  /** One, two and three columns of dots: glyph `i` has `i` bars. */
  const VUX: seq<int> := [0, 0x10, 0x14, 0x15]

  /** The number of set bits of `x`. */
  function PopCount(x: nat): nat
  {
    if x == 0 then 0 else x % 2 + PopCount(x / 2)
  }

  /** The row pattern of glyph `i` has `i` dots, one per bar. */
  lemma VuxBits(i: int)
    requires 0 <= i < 4
    ensures PopCount(VUX[i]) == i
  {
  }

  /**
   * Glyph `i` as the setup leaves it: rows 0..6 all hold `VUX[i]` except
   * that the empty glyph 0 gets one dot in the middle of row 3; row 7 (the
   * cursor line) stays blank.
   */
  function Glyph(i: int): (g: seq<int>)
    requires 0 <= i < 4
    ensures |g| == 8 && g[7] == 0
  {
    seq(8, n requires 0 <= n < 8 => if n == 7 then 0 else if i == 0 && n == 3 then 0x04 else VUX[i])
  }

  // ---------------------------------------------------------------------
  // Cursor positions as the source passes them

  datatype Cursor = Cursor(col: int, row: int)

  /** The digits' cursor as passed: the column argument is 1 and the row argument is the column. */
  function DigitsCursorAsWritten(level: int): Cursor
  {
    Cursor(1, DigitsColumn(level))
  }

  /** The serial slot's cursor as passed: the slot's column is given as the row. */
  function SerialCursorAsWritten(nC: int): Cursor
  {
    Cursor(1, SerialSlot(nC))
  }

  /** The serial frame's cursor as passed: column 1 of the first line. */
  const FRAME_CURSOR_AS_WRITTEN: Cursor := Cursor(1, 0)

  /** As passed, the digits' cursor names row 14 of a two-line display. */
  lemma DigitsCursorAsWrittenOffDisplay()
    ensures DigitsCursorAsWritten(PercentLevel(0)) == Cursor(1, 14)
    ensures DigitsCursorAsWritten(PercentLevel(0)).row >= LCD_LINES
  {
  }

  /**
   * As passed, every serial slot starts at the same column 1, and slots 1
   * and 2 name rows the display does not have.
   */
  lemma SerialCursorsAsWrittenCollide()
    ensures SerialCursorAsWritten(0).col == SerialCursorAsWritten(1).col == SerialCursorAsWritten(2).col == 1
    ensures SerialCursorAsWritten(1).row >= LCD_LINES && SerialCursorAsWritten(2).row >= LCD_LINES
  {
  }

  /**
   * As passed, the serial frame goes to the header line, and starting at
   * column 1 its sixteen characters overrun the line.
   */
  lemma FrameCursorAsWrittenOnHeader()
    ensures FRAME_CURSOR_AS_WRITTEN.row == 0
    ensures FRAME_CURSOR_AS_WRITTEN.col + |SERIAL_FRAME| > LCD_COLS
  {
  }

  // ---------------------------------------------------------------------
  // The display and the module's state

  /**
   * The `lcd` object (a 16x2 grid of character codes, a cursor and eight
   * custom glyphs of eight rows) together with the module's flags
   * `LCDfound`, `LCDmodeSerial` and `LCDposFixCol`.
   */
  class Lcd {
    var cells: array<int>
    var col: int
    var row: int
    var glyphs: seq<seq<int>>
    var found: bool
    var modeSerial: bool
    var posFixCol: int

    ghost predicate Valid()
      reads this
    {
      && cells.Length == LCD_LINES * LCD_COLS
      && 0 <= row < LCD_LINES && 0 <= col
      && |glyphs| == 8
      && 0 <= posFixCol < 0x100
    }

    /** The codes shown on line `r`. */
    function Line(r: int): (s: seq<int>)
      reads this, cells
      requires Valid() && 0 <= r < LCD_LINES
      ensures |s| == LCD_COLS
    {
      cells[r * LCD_COLS..(r + 1) * LCD_COLS]
    }

    /** The global object before setup: a blank screen and the statics' initial values. */
    constructor ()
      ensures Valid() && fresh(cells)
      ensures Line(0) == BLANK_LINE && Line(1) == BLANK_LINE
      ensures col == 0 && row == 0
      ensures glyphs == seq(8, _ => seq(8, _ => 0))
      ensures !found && modeSerial && posFixCol == 0
    {
      cells := new int[LCD_LINES * LCD_COLS](_ => SPACE);
      col, row := 0, 0;
      glyphs := seq(8, _ => seq(8, _ => 0));
      found, modeSerial, posFixCol := false, true, 0;
    }

    /** `lcd.setCursor(c, r)`. */
    method SetCursor(c: int, r: int)
      requires Valid() && 0 <= c && 0 <= r < LCD_LINES
      modifies this`col, this`row
      ensures Valid() && col == c && row == r
    {
      col, row := c, r;
    }

    /** `lcd.home()`. */
    method Home()
      requires Valid()
      modifies this`col, this`row
      ensures Valid() && col == 0 && row == 0
    {
      col, row := 0, 0;
    }

    /** `lcd.begin(...)`: clears the screen and homes the cursor. */
    method Begin()
      requires Valid()
      modifies this`col, this`row, cells
      ensures Valid() && col == 0 && row == 0
      ensures Line(0) == BLANK_LINE && Line(1) == BLANK_LINE
    {
      forall k | 0 <= k < cells.Length {
        cells[k] := SPACE;
      }
      col, row := 0, 0;
    }

    /** `lcd.createChar(location, charmap)`. */
    method CreateChar(location: int, charmap: seq<int>)
      requires Valid() && 0 <= location < 8 && |charmap| == 8
      modifies this`glyphs
      ensures Valid() && glyphs == old(glyphs)[location := charmap]
    {
      glyphs := glyphs[location := charmap];
    }

    /** `lcd.write(code)`: one code at the cursor, which moves right; nothing shows past the last column. */
    method Write(code: int)
      requires Valid()
      modifies this`col, cells
      ensures Valid() && row == old(row) && col == old(col) + 1
      ensures Line(row) == Put(old(Line(row)), old(col), [code])
      ensures Line(1 - row) == old(Line(1 - row))
    {
      if col < LCD_COLS {
        cells[row * LCD_COLS + col] := code;
      }
      col := col + 1;
    }

    /** `lcd.print(text)`: the text's codes written one after the other. */
    method Print(text: seq<char>)
      requires Valid()
      modifies this`col, cells
      ensures Valid() && row == old(row) && col == old(col) + |text|
      ensures Line(row) == Put(old(Line(row)), old(col), Codes(text))
      ensures Line(1 - row) == old(Line(1 - row))
    {
      for k := 0 to |text|
        invariant Valid() && row == old(row) && col == old(col) + k
        invariant Line(row) == Put(old(Line(row)), old(col), Codes(text[..k]))
        invariant Line(1 - row) == old(Line(1 - row))
      {
        Write(text[k] as int);
        PutAppend(old(Line(row)), old(col), Codes(text[..k]), text[k] as int);
        assert Codes(text[..k]) + [text[k] as int] == Codes(text[..k + 1]);
      }
      assert text[..|text|] == text;
    }

    /**
     * The glyph loop of the setup: one local eight-row `charmap` is
     * rewritten for each of the glyphs 0..3 and handed to `createChar`.
     * Rows 0..6 are all overwritten each time and row 7 is never written,
     * so nothing of one glyph carries over into the next.
     */
    method BuildGlyphs()
      requires Valid()
      modifies this`glyphs
      ensures Valid()
      ensures forall i :: 0 <= i < 4 ==> glyphs[i] == Glyph(i)
      ensures glyphs[4..] == old(glyphs)[4..]
    {
      var charmap := new int[8](_ => 0);
      for i := 0 to 4
        modifies this`glyphs, charmap
        invariant Valid()
        invariant charmap[7] == 0
        invariant forall k :: 0 <= k < i ==> glyphs[k] == Glyph(k)
        invariant glyphs[4..] == old(glyphs)[4..]
      {
        for n := 0 to 7
          modifies charmap
          invariant charmap[7] == 0
          invariant forall m :: 0 <= m < n ==> charmap[m] == VUX[i]
        {
          charmap[n] := VUX[i];
        }
        if i == 0 {
          charmap[3] := 0x04;
        }
        assert charmap[..] == Glyph(i);
        CreateChar(i, charmap[..]);
      }
    }

    /**
     * `LCD_I2Csetup(trinketNr, msgHdr)`. `noI2C` is what the pin probe
     * reported (no display on the bus) and `debug` whether the build
     * defines DEBUG. Without a display nothing changes. Otherwise the
     * display is found and cleared; in level mode glyphs 0..3 are built and
     * the header with its cabinet/drawer field is written, in serial mode
     * the unit number, the message header and the frame of the second line.
     */
    method Setup(trinketNr: int, msgHdr: seq<char>, noI2C: bool, debug: bool)
      requires Valid()
      modifies this, cells
      ensures Valid() && cells == old(cells)
      ensures noI2C ==> found == old(found) && modeSerial == old(modeSerial) && posFixCol == old(posFixCol)
      ensures noI2C ==> glyphs == old(glyphs) && col == old(col) && row == old(row)
      ensures noI2C ==> Line(0) == old(Line(0)) && Line(1) == old(Line(1))
      ensures !noI2C ==> found && modeSerial == (old(modeSerial) && !debug)
      ensures !noI2C && !modeSerial ==> row == 0 && col == |LevelHeader(trinketNr)|
      ensures !noI2C && modeSerial ==> row == 1 && col == |SERIAL_FRAME|
      ensures !noI2C && !modeSerial ==>
        && (forall i :: 0 <= i < 4 ==> glyphs[i] == Glyph(i))
        && glyphs[4..] == old(glyphs)[4..]
        && Line(0) == Put(BLANK_LINE, 0, Codes(LevelHeader(trinketNr)))
        && Line(1) == BLANK_LINE
        && posFixCol == POS_FIX_COL
      ensures !noI2C && modeSerial ==>
        && glyphs == old(glyphs)
        && Line(0) == Put(BLANK_LINE, 0, Codes(SerialHeader(trinketNr, msgHdr)))
        && Line(1) == Codes(SERIAL_FRAME)
        && posFixCol == old(posFixCol)
    {
      if noI2C {
        return;
      }
      found := true;
      if debug {
        modeSerial := false;
      }
      Begin();
      if !modeSerial {
        BuildGlyphs();
        Home();
        Print("TN" + NatText(ToUint8(trinketNr)) + ": Cab/Drw= ..");
        posFixCol := POS_FIX_COL;
      } else {
        Home();
        Print("TN" + NatText(ToUint8(trinketNr)) + msgHdr);
        SetCursor(0, 1);
        Print(SERIAL_FRAME);
        PutWhole(BLANK_LINE, Codes(SERIAL_FRAME));
      }
    }

    /**
     * `LCDshowBar(r01, level)`: the level, limited to 0..48, drawn over the
     * whole line `r01 % 2`; the other line is left alone.
     */
    method ShowBar(r01: int, level: int)
      requires Valid()
      modifies this`col, this`row, cells
      ensures Valid() && row == ToUint8(r01) % LCD_LINES && col == LCD_COLS
      ensures Line(row) == BarRow(Constrain(level, 0, BAR_MAX))
      ensures var other := 1 - ToUint8(r01) % LCD_LINES; Line(other) == old(Line(other))
    {
      var r := ToUint8(r01) % LCD_LINES;
      SetCursor(0, r);
      ghost var other := Line(1 - r);
      var total := Constrain(level, 0, BAR_MAX);
      var left := total;
      for i := 0 to LCD_COLS
        invariant Valid() && row == r && col == i
        invariant left == if 3 * i <= total then total - 3 * i else 0
        invariant forall k :: 0 <= k < i ==> Line(row)[k] == BarCell(total, k)
        invariant Line(1 - row) == other
      {
        BarCellOfRemainder(total, i);
        if left >= 3 {
          left := left - 3;
          Write(3);
        } else {
          Write(left);
          left := 0;
        }
      }
    }

    /**
     * `LCDshowCabDrwBar(cabNr, drw, percent)`: the cabinet number and the
     * drawer letter in the header's field, and on the second line the bar
     * for the percentage with its two digits at the end or at the start.
     */
    method ShowCabDrwBar(cabNr: int, drw: char, percent: int)
      requires Valid()
      modifies this`col, this`row, cells
      ensures Valid()
      ensures Line(0) == Put(old(Line(0)), posFixCol, Codes(NatText(ToUint8(cabNr)) + [drw]))
      ensures Line(1) == PercentLine(percent)
      ensures row == 1
      ensures col == DigitsColumn(PercentLevel(percent)) + |IntText(Div(percent, 10)) + IntText(Rem(percent, 10))|
    {
      SetCursor(posFixCol, 0);
      Print(NatText(ToUint8(cabNr)) + [drw]);
      var level := PercentLevel(percent);
      ShowBar(1, level);
      var pos := DigitsColumn(level);
      SetCursor(pos, 1);
      Print(IntText(Div(percent, 10)) + IntText(Rem(percent, 10)));
    }

    /** `LCDshowSerial(nC, fourDigits)`: the text in slot `nC` of the second line. */
    method ShowSerial(nC: int, fourDigits: seq<char>)
      requires Valid()
      modifies this`col, this`row, cells
      ensures Valid()
      ensures Line(1) == Put(old(Line(1)), ToUint8(SerialSlot(nC)), Codes(fourDigits))
      ensures Line(0) == old(Line(0))
      ensures row == 1 && col == ToUint8(SerialSlot(nC)) + |fourDigits|
    {
      var pos := SerialSlot(nC);
      SetCursor(ToUint8(pos), 1);
      Print(fourDigits);
    }
  }
}
