# DrawerDetect: configuration arithmetic and LCD layout

This project models two integer cores of the DrawerDetect firmware. The
firmware runs on a Pro Trinket, reads ultrasonic sensors in kitchen-cabinet
drawers, and shows the result on an optional 16x2 I2C character LCD.

- `DrawerDetect.h` (module `DrawerDetect`, file `drawer_detect.dfy`). It holds
  the time-of-flight macro `CONVERT_cm2us` and the calibration thresholds
  `MIN_US`, `CLOSED_US` and `MAX_US`. It holds the `sDrawerType` record with a
  well-formedness predicate, and the three per-unit `CabinetSetup` tables as
  written, next to a corrected selection (see Findings). It
  also holds the `DrawNum2x` letter table, the mask bit of each drawer, the
  RGB LED's `PWM_AK` polarity macro and the `TRINKET_NR` range check. All of
  these are constants and macros, so they are modelled as functions and
  constants.
- `LCD_I2C_optional.h` (module `LcdI2c`, file `lcd_i2c.dfy`). The `lcd`
  object and the module statics `LCDfound`, `LCDmodeSerial` and
  `LCDposFixCol` are one class, `Lcd`. It has a 32-cell array of character
  codes (line 0 then line 1), a cursor and an 8-entry custom-glyph table.
  - `LCDshowBar` is a loop that writes one cell at a time, as in the source.
  - `LCD_I2Csetup`'s glyph loop rewrites a local `charmap` array for each glyph.
  - The level map, the choice of the digits' column, the digit split and the
    serial slot columns are pure functions. Lemmas state their properties.
- `c_int.dfy` (module `CInt`) gives the C and Arduino integer semantics the
  two headers rely on:
  - division and remainder that truncate toward zero;
  - the Arduino core's `constrain` and `map`;
  - the narrowing casts to `uint8_t` and `uint16_t`.

Exact values. The three thresholds are `MIN_US = 174`, `CLOSED_US = 291` and
`MAX_US = 3088`. The figure 290 beside `CLOSED_US` in the header is one too
low: 1000000 * 10 / 34320 is 291.37, which truncates to 291. The comment
"(50cm)" beside `MAX_US` is also wrong. That value is for the 106 cm round
trip to `MAX_CM = 53`.

Negative pins. In the code a negative pin number means "not used" (and, for a
trigger, "no trigger": a reed-switch cabinet). The model follows the code.
Its well-formedness predicate requires, for each drawer slot, that the mask
bit is set exactly when the echo pin is non-negative.

## Model

| member | source | states |
|---|---|---|
| CInt.DivTowardZero | DrawerDetect.h:97 | C's `/` by a positive divisor leaves a remainder in [0, b) for a non-negative dividend and in (-b, 0] for a negative one: it rounds toward zero |
| CInt.Rem | LCD_I2C_optional.h:182 | C's `%` by a positive divisor has the dividend's sign and is smaller than the divisor in magnitude |
| CInt.DivMonotone | DrawerDetect.h:97 | truncating division by a positive constant preserves order, across the sign change too |
| CInt.Constrain | LCD_I2C_optional.h:153 | `constrain` returns a value in [low, high]: the argument itself when it is inside, the nearer bound when it is outside |
| CInt.Map | LCD_I2C_optional.h:172 | `map` sends the input range's two ends to the output range's two ends |
| CInt.ToUint8 | LCD_I2C_optional.h:169 | a `uint8_t` cast gives a value in 0..255 that is congruent to the argument modulo 256 and equals it when it is in range |
| CInt.ToUint16 | DrawerDetect.h:107-109 | a `uint16_t` cast gives a value in 0..65535 that is congruent to the argument modulo 65536 and equals it when it is in range |
| DrawerDetect.ConvertCmToUs | DrawerDetect.h:94-97 | for cm >= 0 the result is floor(1000000 * cm / 34320); it is at most 0 for negative cm; callers must keep the 32-bit product from overflowing |
| DrawerDetect.ConvertZero | DrawerDetect.h:97 | zero centimetres take zero microseconds |
| DrawerDetect.ConvertMonotone | DrawerDetect.h:97 | the conversion never decreases as the distance grows |
| DrawerDetect.CalibrationValues | DrawerDetect.h:101-109 | CLOSED_CM = 5, MAX_CM = 53, MIN_US = 174, CLOSED_US = 291 (not the 290 of the comment), MAX_US = 3088 |
| DrawerDetect.CalibrationOrdered | DrawerDetect.h:107-109 | MIN_US < CLOSED_US < MAX_US, and each `uint16_t` constant equals its unnarrowed round-trip value |
| DrawerDetect.PwmAk | DrawerDetect.h:17 | with `RGBLED_COM_ANODE` set to 0 the configured `PWM_AK` is the identity |
| DrawerDetect.PwmAkInvolution | DrawerDetect.h:49-53 | for either polarity `PWM_AK` maps 0..255 into 0..255 and applying it twice gives the duty cycle back |
| DrawerDetect.DrawerBit | DrawerDetect.h:23-25 | the mask bit of slot 1, 2, 3 is 1, 2, 4: each slot doubles the previous bit |
| DrawerDetect.MaskDecomposes | DrawerDetect.h:24-32 | `DrawNum2x` gives u, m, o for slots 1..3, and a mask in 0..7 equals the sum of the bits of the drawers it selects |
| DrawerDetect.Trinket1EntryAsWrittenInconsistent | DrawerDetect.h:66 | the third unit-1 entry as written has a mask bit clear over a wired echo pin and a mask bit set over an unused one, so that table is not well-formed |
| DrawerDetect.CabinetSetup | DrawerDetect.h:4-88 | with the tables as written, a table exists exactly for `TRINKET_NR` in 1..3 and has 2 or 3 entries; the tables of units 2 and 3 are well-formed (every entry agrees with its mask, no cabinet number or wired pin repeats), the table of unit 1 is not |
| DrawerDetect.CabinetSetupCorrected | DrawerDetect.h:59-67 | with unit 1's third entry corrected, every selected table is well-formed; it equals the table as written for units 2 and 3, and for unit 1 differs only in the third entry's echo pins: the trigger stays 8, and the echo pins are the same pins moved between slots |
| DrawerDetect.Trinket1WellFormed | DrawerDetect.h:59-67 | the unit-1 table, with the third entry's echo pin in its bottom slot, is well-formed |
| DrawerDetect.Trinket2WellFormed | DrawerDetect.h:69-76 | the unit-2 table is well-formed, including the reed-switch cabinet with a negative trigger |
| DrawerDetect.Trinket3WellFormed | DrawerDetect.h:78-85 | the unit-3 table is well-formed, including the cabinet with no middle drawer |
| LcdI2c.NatText | LCD_I2C_optional.h:181-182 | a number prints as one or more decimal digits with no leading zero; below 10 it is a single digit |
| LcdI2c.NatTextRoundTrip | LCD_I2C_optional.h:181-182 | reading the printed digits back as a decimal number gives the number printed |
| LcdI2c.IntTextRoundTrip | LCD_I2C_optional.h:181-182 | reading a printed signed number back, minus sign included, gives the number printed |
| LcdI2c.BarRow | LCD_I2C_optional.h:155-163 | the bar line has exactly 16 cells, each holding a glyph code in 0..3 |
| LcdI2c.BarRowSum | LCD_I2C_optional.h:153-163 | the bar's cell codes add up to exactly its level |
| LcdI2c.BarRowShape | LCD_I2C_optional.h:155-163 | cells never increase from left to right; a cell is full exactly when the level covers it; after a partly filled cell every cell is empty |
| LcdI2c.PercentLevel | LCD_I2C_optional.h:172 | percent 0 gives level 0 and percent 99 gives level 48 |
| LcdI2c.PercentLevelMonotone | LCD_I2C_optional.h:172 | the level never decreases as the percentage grows, and percentages 0..99 give levels 0..48 |
| LcdI2c.DigitsColumn | LCD_I2C_optional.h:178 | the digits go at column 14 exactly when the level is below 28, otherwise at column 0 |
| LcdI2c.DigitsColumnThreshold | LCD_I2C_optional.h:172-178 | for percent in 0..99 the digits go at the end exactly when percent <= 57 |
| LcdI2c.DigitsHideNoBar | LCD_I2C_optional.h:178-186 | when the digits go at the end, the two bar cells they cover are empty |
| LcdI2c.PercentDigits | LCD_I2C_optional.h:181-182 | for percent in 0..99 the tens and the units are single digits that recombine to the percentage, and each prints as one character |
| LcdI2c.PercentLineShape | LCD_I2C_optional.h:172-182 | for percent in 0..99 the second line is the bar with just the two digit cells replaced; at the end they leave every bar cell before them intact |
| LcdI2c.LevelHeaderFixColumn | LCD_I2C_optional.h:126-130 | with a one-digit unit number the level-mode header fills the 16 columns and its two placeholder dots are at `LCDposFixCol` = 14 |
| LcdI2c.SerialSlotsFit | LCD_I2C_optional.h:145 | the slots starting at 5 * nC + 1 for nC = 0..2 do not overlap; they lie on the dots in columns 1..14, between the frame's '>' at 0 and '<' at 15 |
| LcdI2c.VuxBits | LCD_I2C_optional.h:72-76 | the row pattern `VUx[i]` has exactly i dots |
| LcdI2c.Glyph | LCD_I2C_optional.h:105-114 | every glyph has eight rows, and row 7 stays blank |
| LcdI2c.DigitsCursorAsWrittenOffDisplay | LCD_I2C_optional.h:179 | the digits' cursor as passed names row 14, which a two-line display does not have |
| LcdI2c.SerialCursorsAsWrittenCollide | LCD_I2C_optional.h:198-199 | the serial slots' cursors as passed all start at column 1, and slots 1 and 2 name rows that do not exist |
| LcdI2c.FrameCursorAsWrittenOnHeader | LCD_I2C_optional.h:144 | the frame's cursor as passed is on the header line, and 16 characters written from column 1 overrun it |
| LcdI2c.Lcd.constructor | LCD_I2C_optional.h:22-34 | before setup: no display found, serial mode, fixed column 0, blank screen, cursor home |
| LcdI2c.Lcd.SetCursor | LCD_I2C_optional.h:152 | the cursor moves to the given column and line |
| LcdI2c.Lcd.Home | LCD_I2C_optional.h:115 | the cursor moves to column 0 of line 0 |
| LcdI2c.Lcd.Begin | LCD_I2C_optional.h:96 | both lines are blank and the cursor is home |
| LcdI2c.Lcd.CreateChar | LCD_I2C_optional.h:113 | glyph `location` becomes the given eight rows; no other glyph changes |
| LcdI2c.Lcd.Write | LCD_I2C_optional.h:158-161 | one code goes in the cursor's cell if it is on screen; the cursor moves one column right; nothing else changes |
| LcdI2c.Lcd.Print | LCD_I2C_optional.h:126-128 | the text's codes fill the cells from the cursor on, clipped at column 15; the cursor moves past the text; the other line is unchanged |
| LcdI2c.Lcd.BuildGlyphs | LCD_I2C_optional.h:104-114 | glyphs 0..3 become `Glyph(0..3)`: rows 0..6 are `VUx[i]`, except row 3 of glyph 0 which is a single dot, and row 7 is blank; glyphs 4..7 are unchanged |
| LcdI2c.Lcd.Setup | LCD_I2C_optional.h:69-147 | with no display nothing changes. Otherwise the display is marked found and cleared, and DEBUG selects level mode. Level mode builds glyphs 0..3, writes the header and sets `LCDposFixCol` to 14. Level mode leaves the cursor after the header on line 0. Serial mode writes "TN", the unit number and the message header on line 0 and the frame on line 1, and leaves the cursor after the frame |
| LcdI2c.Lcd.ShowBar | LCD_I2C_optional.h:150-164 | line `r01 % 2` becomes exactly the bar for the level clamped to 0..48; the other line is unchanged; the cursor ends after column 15 |
| LcdI2c.Lcd.ShowCabDrwBar | LCD_I2C_optional.h:166-187 | the cabinet number and drawer letter are written at `LCDposFixCol` on line 0; line 1 becomes the bar for `map(percent, 0, 99, 0, 48)` with the tens and units at column 14 or 0; the cursor ends on line 1 just after the digits |
| LcdI2c.Lcd.ShowSerial | LCD_I2C_optional.h:190-201 | the text is written on line 1 from column 5 * nC + 1 (as a `uint8_t`), clipped at column 15; line 0 is unchanged; the cursor ends on line 1 just after the text |

## Findings

| source | as written | input that shows it | evidently intended | confidence | as-written member | corrected member |
|---|---|---|---|---|---|---|
| DrawerDetect.h:66 | `{ 1, 0b001, {8, -1, -1, A3} }`: mask selects the bottom drawer, echo pin is in the top slot | the entry itself: bit u set over pin -1, bit o clear over pin A3 | the bottom drawer's echo pin in the bottom slot, `{8, A3, -1, -1}` (the comment names the lower drawer) | medium, not executed | DrawerDetect.Trinket1EntryAsWrittenInconsistent | DrawerDetect.CabinetSetupCorrected |
| LCD_I2C_optional.h:179 | `lcd.setCursor(1, pos)` passes the column as the row | percent 0: level 0, pos 14, row argument 14 | `setCursor(pos, 1)`: the digits on the bar line at column 14 or 0 | high, not executed | LcdI2c.DigitsCursorAsWrittenOffDisplay | LcdI2c.Lcd.ShowCabDrwBar |
| LCD_I2C_optional.h:199 | `lcd.setCursor(1, pos)` passes the slot column as the row | nC = 1: row argument 6, column 1, the same column as slot 0 | `setCursor(pos, 1)`: slot nC at column 5 * nC + 1 of line 1 | high, not executed | LcdI2c.SerialCursorsAsWrittenCollide | LcdI2c.Lcd.ShowSerial |
| LCD_I2C_optional.h:144 | `lcd.setCursor(1, 0)` puts the frame on line 0 at column 1 | any setup in serial mode: the 16-character frame overruns line 0 | `setCursor(0, 1)`: the frame fills line 1 | high, not executed | LcdI2c.FrameCursorAsWrittenOnHeader | LcdI2c.Lcd.Setup |

## Left out

- The ranging loop, the echo-to-percent resolver and the cabinet multiplexer are not in these two headers. The sketch that holds them is not part of this model.
- `noI2Cconnected` (LCD_I2C_optional.h:37-66) probes the SDA/SCL pins through `pinMode`/`digitalRead`/`digitalWrite`. Its result is the `noI2C` parameter of `Lcd.Setup`.
- The Wire and LiquidCrystal_I2C libraries are not part of this model. Each call is modelled only by its effect on the grid, the cursor or the glyph table:
  - `begin` clears the screen and homes the cursor;
  - a code written past column 15 is dropped (see the `Lcd.Write` line below);
  - the corrected calls pass `setCursor` a line of 0 or 1 only. The calls as written at LCD_I2C_optional.h:179 and :199 pass rows 14, 6 and 11 (see Findings). What the library does with such a row is not modelled;
  - `createChar` is only called with locations 0..7.
- `Lcd.Write`: a code written past column 15 is dropped. On the HD44780 controller the codes for columns 16..39 go to display memory that is not shown. After column 39 the address counter runs on into the other line. So a header or slot text that runs more than 24 columns past the end of its line would show on the other line, and the model does not capture that.
- `Lcd.Print`: a `String` or `char*` is a sequence of characters. The NUL that ends a C string is not modelled.
  - Text is taken to be ASCII, one byte per character. Each character becomes one cell holding its code, and the same holds for the drawer letter `drw` of `Lcd.ShowCabDrwBar`.
  - A multi-byte (UTF-8) character in `msgHdr` or `fourDigits` would reach the display as several bytes. That means more cells, other codes, and a later final cursor and clipping point. This is not modelled.
- `DEBUG` is a build flag. It is the `debug` parameter of `Lcd.Setup`.
- `Lcd.ShowCabDrwBar`, `Lcd.ShowBar`: `percent`, `level` and `cabNr` are unbounded integers. The source's 16-bit `int` cannot reach values where `map`'s 32-bit product would overflow, so no wrap-around is modelled.
- The `#error`/`#warning` plumbing is left out. The `TRINKET_NR` check is modelled only as `CabinetSetup` returning no table outside 1..3.
- DrawerDetect.h:65 lacks the comma between two entries, so the unit-1 table would not compile as shown. The model takes it as its three entries.
- `A0`..`A3` are 14..17, as in the ATmega328 variant header of the Arduino core. That header is not part of this model.
- The KiCad netlist comment, `PIN_RED_LED`, `PIN_PWM4RGB`, `LCD_I2C_ADDR` and `DOTSIZE` are wiring and bus constants. No logic is attached to them.
- The definitions of `map` and `constrain` come from the Arduino core, which is not part of this model. The model uses their standard formulas: `(x - in_min) * (out_max - out_min) / (in_max - in_min) + out_min` in `long`, and the three-way comparison.
