/**
 * The configuration header of the drawer-detection firmware: the
 * time-of-flight conversion and the calibration thresholds derived from
 * it, the per-cabinet drawer/pin record and the three per-unit tables, the
 * drawer-letter table, the RGB LED's PWM polarity and the unit-number
 * check. Everything here is a compile-time constant or a macro, so it is
 * modelled by functions and constants.
 */
module DrawerDetect {
  import opened CInt

  datatype Option<T> = None | Some(value: T)

  // ---------------------------------------------------------------------
  // Unit number

  /** `TRINKET_NR` must be 1, 2 or 3; any other value stops the build. */
  predicate TrinketNrValid(trinketNr: int) {
    1 <= trinketNr <= 3
  }

  // ---------------------------------------------------------------------
  // Time of flight

  /** Length of a drawer's travel in cm. */
  const DRAWER_LEN_CM: int := 50
  /** Speed of sound in air at 20 degrees Celsius: 343.2 m/s, in cm/s. */
  const SPEED_OF_SOUND_CM_PER_SEC: int := 34320

  const MIN_CM: int := 3
  /** Distance at which a drawer counts as closed. */
  const CLOSED_CM: int := MIN_CM + 2
  const MAX_CM: int := MIN_CM + DRAWER_LEN_CM

  /**
   * `CONVERT_cm2us(cm)`: the time in microseconds sound needs for `cm`
   * centimetres. The literal 1000000 is a 32-bit `long` on the AVR, so
   * the product is computed in 32 bits (an overflow there would be
   * undefined behaviour) and the division truncates toward zero.
   */
  function ConvertCmToUs(cm: int): (us: int)
    requires INT32_MIN <= 1000000 * cm <= INT32_MAX
    ensures cm >= 0 ==> us * SPEED_OF_SOUND_CM_PER_SEC <= 1000000 * cm < (us + 1) * SPEED_OF_SOUND_CM_PER_SEC
    ensures cm < 0 ==> us <= 0
  {
    DivTowardZero(1000000 * cm, SPEED_OF_SOUND_CM_PER_SEC);
    Div(1000000 * cm, SPEED_OF_SOUND_CM_PER_SEC)
  }

  /** No distance takes no time. */
  lemma ConvertZero()
    ensures ConvertCmToUs(0) == 0
  {
  }

  /** A longer distance never takes less time. */
  lemma ConvertMonotone(cm1: int, cm2: int)
    requires INT32_MIN <= 1000000 * cm1 && 1000000 * cm2 <= INT32_MAX
    requires cm1 <= cm2
    ensures ConvertCmToUs(cm1) <= ConvertCmToUs(cm2)
  {
    DivMonotone(1000000 * cm1, 1000000 * cm2, SPEED_OF_SOUND_CM_PER_SEC);
  }

  /**
   * The three thresholds are `uint16_t` constants holding the round-trip
   * time (twice the distance) of the minimum, closed and maximum distance.
   */
  const MIN_US: int := ToUint16(ConvertCmToUs(2 * MIN_CM))
  const MAX_US: int := ToUint16(ConvertCmToUs(2 * MAX_CM))
  const CLOSED_US: int := ToUint16(ConvertCmToUs(2 * CLOSED_CM))

  /**
   * The exact values of the thresholds. The closed threshold is 291 us
   * (10 cm of sound path); the figure 290 written beside it is one too low.
   */
  lemma CalibrationValues()
    ensures CLOSED_CM == 5 && MAX_CM == 53
    ensures MIN_US == 174 && CLOSED_US == 291 && MAX_US == 3088
  {
    assert ConvertCmToUs(2 * MIN_CM) == 174;
    assert ConvertCmToUs(2 * CLOSED_CM) == 291;
    assert ConvertCmToUs(2 * MAX_CM) == 3088;
  }

  /**
   * The thresholds are ordered, and the narrowing to `uint16_t` loses
   * nothing: each equals the round-trip conversion it was computed from.
   */
  lemma CalibrationOrdered()
    ensures MIN_US < CLOSED_US < MAX_US
    ensures MIN_US == ConvertCmToUs(2 * MIN_CM)
    ensures CLOSED_US == ConvertCmToUs(2 * CLOSED_CM)
    ensures MAX_US == ConvertCmToUs(2 * MAX_CM)
  {
    CalibrationValues();
  }

  // ---------------------------------------------------------------------
  // RGB LED polarity

  /** 0 for a common-cathode RGB LED, 1 for a common-anode one. */
  const RGBLED_COM_ANODE: int := 0

  /** `PWM_AK(x)` as the preprocessor selects it for a given LED polarity. */
  function PwmAkFor(comAnode: int, x: int): (r: int)
    ensures comAnode == 0 ==> r == x
    ensures comAnode != 0 ==> r + x == 255
    ensures 0 <= x <= 255 ==> 0 <= r <= 255
  {
    if comAnode == 0 then x else 255 - x
  }

  /** `PWM_AK(x)` for the configured LED. */
  function PwmAk(x: int): (r: int)
    ensures r == x
  {
    PwmAkFor(RGBLED_COM_ANODE, x)
  }

  /** For either polarity the PWM mapping keeps a duty cycle in 0..255 and undoes itself. */
  lemma PwmAkInvolution(comAnode: int, x: int)
    requires 0 <= x <= 255
    ensures 0 <= PwmAkFor(comAnode, x) <= 255
    ensures PwmAkFor(comAnode, PwmAkFor(comAnode, x)) == x
  {
  }

  // ---------------------------------------------------------------------
  // Cabinet / drawer configuration

  /**
   * `sDrawerType`: one cabinet on this unit. `mskOMU` has bit 0 for the
   * bottom (u), bit 1 for the middle (m) and bit 2 for the top (o) drawer;
   * `usPins` holds the shared trigger pin followed by the u, m and o echo
   * pins, a negative number marking a pin as not used.
   */
  datatype DrawerType = DrawerType(cabNr: int, mskOMU: int, usPins: seq<int>)

  /** `DrawNum2x`: the letter of each pin slot; slot 0 is the trigger. */
  const DRAW_NUM_2X: seq<char> := ['T', 'u', 'm', 'o']

  /** The mask bit `1 << (slot - 1)` of the drawer whose echo pin is in `slot`. */
  function DrawerBit(slot: int): (bit: int)
    requires 1 <= slot <= 3
    ensures bit == 1 || bit == 2 || bit == 4
    ensures slot > 1 ==> bit == 2 * DrawerBit(slot - 1)
  {
    if slot == 1 then 1 else if slot == 2 then 2 else 4
  }

  /** Whether `mask & (1 << (slot - 1))` is non-zero (two's complement bit test). */
  predicate HasDrawer(mask: int, slot: int)
    requires 1 <= slot <= 3
  {
    (mask / DrawerBit(slot)) % 2 == 1
  }

  /**
   * Slot i of the pin table carries letter u, m, o in turn, and a mask in
   * 0..7 is exactly the sum of the bits of the drawers it selects.
   */
  lemma {:induction false} MaskDecomposes(mask: int)
    requires 0 <= mask <= 7
    ensures DRAW_NUM_2X[1] == 'u' && DRAW_NUM_2X[2] == 'm' && DRAW_NUM_2X[3] == 'o'
    ensures mask == (if HasDrawer(mask, 1) then 1 else 0)
                  + (if HasDrawer(mask, 2) then 2 else 0)
                  + (if HasDrawer(mask, 3) then 4 else 0)
  {
    assert DrawerBit(1) == 1 && DrawerBit(2) == 2 && DrawerBit(3) == 4;
  }

  /** A mask bit that is clear leaves the echo pin of its slot unused (negative). */
  predicate EchoUnusedWhenClear(d: DrawerType)
    requires |d.usPins| == 4
  {
    forall slot :: 1 <= slot <= 3 && !HasDrawer(d.mskOMU, slot) ==> d.usPins[slot] < 0
  }

  /** A mask bit that is set has a wired (non-negative) echo pin in its slot. */
  predicate EchoWiredWhenSet(d: DrawerType)
    requires |d.usPins| == 4
  {
    forall slot :: 1 <= slot <= 3 && HasDrawer(d.mskOMU, slot) ==> d.usPins[slot] >= 0
  }

  /** The echo pins in use differ from each other and from the trigger, ignoring its sign. */
  predicate EchoPinsDistinct(d: DrawerType)
    requires |d.usPins| == 4
  {
    && (forall i, j :: 1 <= i < j <= 3 && d.usPins[i] >= 0 && d.usPins[j] >= 0 ==> d.usPins[i] != d.usPins[j])
    && (forall i :: 1 <= i <= 3 && d.usPins[i] >= 0 ==> d.usPins[i] != d.usPins[0] && d.usPins[i] != -d.usPins[0])
  }

  /**
   * A well-formed cabinet entry: cabinet number 1..7, at least one drawer
   * in the mask 0b001..0b111, four pins, and a mask that agrees with the
   * echo pins in both directions. The trigger may be negative: a cabinet
   * read by a reed switch has no trigger.
   */
  predicate WellFormedEntry(d: DrawerType) {
    && 1 <= d.cabNr <= 7
    && 1 <= d.mskOMU <= 7
    && |d.usPins| == 4
    && EchoUnusedWhenClear(d)
    && EchoWiredWhenSet(d)
    && EchoPinsDistinct(d)
  }

  /** Every entry is well-formed, and no cabinet number or wired pin is used twice. */
  predicate WellFormedTable(t: seq<DrawerType>) {
    && (forall k :: 0 <= k < |t| ==> WellFormedEntry(t[k]))
    && (forall j, k :: 0 <= j < k < |t| ==> t[j].cabNr != t[k].cabNr)
    && (forall j, k :: 0 <= j < k < |t| ==> WiredPinsDisjoint(t[j], t[k]))
  }

  /** No non-negative pin of `d` is a non-negative pin of `e`. */
  predicate WiredPinsDisjoint(d: DrawerType, e: DrawerType) {
    forall i, j :: 0 <= i < |d.usPins| && 0 <= j < |e.usPins| && d.usPins[i] >= 0 ==> d.usPins[i] != e.usPins[j]
  }

  /** Analog pins of the ATmega328 Arduino variant. */
  const A0: int := 14
  const A1: int := 15
  const A2: int := 16
  const A3: int := 17

  /**
   * The table of unit 1 as its entries are written: the third cabinet has
   * mask 0b001 (bottom drawer only) while its one echo pin sits in the top
   * drawer's slot.
   */
  const TRINKET1_SETUP_AS_WRITTEN: seq<DrawerType> := [
    DrawerType(2, 0x7, [12, A2, A1, A0]),
    DrawerType(3, 0x7, [5, 3, 4, 6]),
    DrawerType(1, 0x1, [8, -1, -1, A3])
  ]

  /** The table of unit 1 with the third cabinet's echo pin in the bottom drawer's slot. */
  const TRINKET1_SETUP_CORRECTED: seq<DrawerType> := [
    DrawerType(2, 0x7, [12, A2, A1, A0]),
    DrawerType(3, 0x7, [5, 3, 4, 6]),
    DrawerType(1, 0x1, [8, A3, -1, -1])
  ]

  /** The table of unit 2; its second cabinet is a reed switch without a trigger. */
  const TRINKET2_SETUP: seq<DrawerType> := [
    DrawerType(5, 0x7, [12, A2, A1, A0]),
    DrawerType(4, 0x2, [-5, -3, 4, -6])
  ]

  /** The table of unit 3; its second cabinet has a bottom and a top drawer. */
  const TRINKET3_SETUP: seq<DrawerType> := [
    DrawerType(6, 0x7, [12, A2, A1, A0]),
    DrawerType(7, 0x5, [5, 3, -4, 6])
  ]

  /** The unit-1 entry as written breaks the mask convention in both directions. */
  lemma Trinket1EntryAsWrittenInconsistent()
    ensures |TRINKET1_SETUP_AS_WRITTEN| == 3
    ensures !EchoUnusedWhenClear(TRINKET1_SETUP_AS_WRITTEN[2])
    ensures !EchoWiredWhenSet(TRINKET1_SETUP_AS_WRITTEN[2])
    ensures !WellFormedTable(TRINKET1_SETUP_AS_WRITTEN)
  {
    var d := TRINKET1_SETUP_AS_WRITTEN[2];
    assert !HasDrawer(d.mskOMU, 3) && d.usPins[3] >= 0;
    assert HasDrawer(d.mskOMU, 1) && d.usPins[1] < 0;
  }

  /**
   * `CabinetSetup[]` as `TRINKET_NR` selects it, with the tables exactly as
   * written: no table (a build error) outside 1..3, otherwise that unit's
   * table. The tables of units 2 and 3 are well-formed; the table of unit 1
   * is not, because of its third entry.
   */
  function CabinetSetup(trinketNr: int): (t: Option<seq<DrawerType>>)
    ensures t.Some? <==> TrinketNrValid(trinketNr)
    ensures t.Some? ==> 2 <= |t.value| <= 3
    ensures trinketNr == 2 || trinketNr == 3 ==> WellFormedTable(t.value)
    ensures trinketNr == 1 ==> !WellFormedTable(t.value)
  {
    if trinketNr == 1 then
      Trinket1EntryAsWrittenInconsistent();
      Some(TRINKET1_SETUP_AS_WRITTEN)
    else if trinketNr == 2 then
      Trinket2WellFormed();
      Some(TRINKET2_SETUP)
    else if trinketNr == 3 then
      Trinket3WellFormed();
      Some(TRINKET3_SETUP)
    else
      None
  }

  /**
   * The selection with the unit-1 table corrected: every table it gives is
   * well-formed, and it differs from the tables as written only in the echo
   * pins of unit 1's third entry.
   */
  function CabinetSetupCorrected(trinketNr: int): (t: Option<seq<DrawerType>>)
    ensures t.Some? <==> TrinketNrValid(trinketNr)
    ensures t.Some? ==> WellFormedTable(t.value) && |t.value| == |CabinetSetup(trinketNr).value|
    ensures trinketNr != 1 ==> t == CabinetSetup(trinketNr)
    ensures trinketNr == 1 ==>
      && t.value[..2] == CabinetSetup(1).value[..2]
      && t.value[2].cabNr == CabinetSetup(1).value[2].cabNr
      && t.value[2].mskOMU == CabinetSetup(1).value[2].mskOMU
      && t.value[2].usPins[0] == CabinetSetup(1).value[2].usPins[0]
      && multiset(t.value[2].usPins[1..]) == multiset(CabinetSetup(1).value[2].usPins[1..])
  {
    if trinketNr == 1 then
      Trinket1WellFormed();
      assert TRINKET1_SETUP_CORRECTED[2].usPins[1..] == [A3, -1, -1];
      assert TRINKET1_SETUP_AS_WRITTEN[2].usPins[1..] == [-1, -1, A3];
      Some(TRINKET1_SETUP_CORRECTED)
    else
      CabinetSetup(trinketNr)
  }

  /** The slot-by-slot reading of `WellFormedEntry`, used on the concrete tables. */
  lemma {:induction false} EntryBySlots(d: DrawerType)
    requires 1 <= d.cabNr <= 7 && 1 <= d.mskOMU <= 7 && |d.usPins| == 4
    requires HasDrawer(d.mskOMU, 1) <==> d.usPins[1] >= 0
    requires HasDrawer(d.mskOMU, 2) <==> d.usPins[2] >= 0
    requires HasDrawer(d.mskOMU, 3) <==> d.usPins[3] >= 0
    requires EchoPinsDistinct(d)
    ensures WellFormedEntry(d)
  {
    forall slot | 1 <= slot <= 3
      ensures HasDrawer(d.mskOMU, slot) <==> d.usPins[slot] >= 0
    {
      assert slot == 1 || slot == 2 || slot == 3;
    }
  }

  lemma Trinket1WellFormed()
    ensures WellFormedTable(TRINKET1_SETUP_CORRECTED)
  {
    var t := TRINKET1_SETUP_CORRECTED;
    ConstantEntryWellFormed(t[0]);
    ConstantEntryWellFormed(t[1]);
    ConstantEntryWellFormed(t[2]);
    Trinket1PinsDisjoint();
    TableOfThree(t);
  }

  lemma Trinket1PinsDisjoint()
    ensures WiredPinsDisjoint(TRINKET1_SETUP_CORRECTED[0], TRINKET1_SETUP_CORRECTED[1])
    ensures WiredPinsDisjoint(TRINKET1_SETUP_CORRECTED[0], TRINKET1_SETUP_CORRECTED[2])
    ensures WiredPinsDisjoint(TRINKET1_SETUP_CORRECTED[1], TRINKET1_SETUP_CORRECTED[2])
  {
  }

  /** The pairwise reading of `WellFormedTable` for a table of three entries. */
  lemma TableOfThree(t: seq<DrawerType>)
    requires |t| == 3
    requires WellFormedEntry(t[0]) && WellFormedEntry(t[1]) && WellFormedEntry(t[2])
    requires t[0].cabNr != t[1].cabNr && t[0].cabNr != t[2].cabNr && t[1].cabNr != t[2].cabNr
    requires WiredPinsDisjoint(t[0], t[1]) && WiredPinsDisjoint(t[0], t[2]) && WiredPinsDisjoint(t[1], t[2])
    ensures WellFormedTable(t)
  {
    forall k | 0 <= k < |t| ensures WellFormedEntry(t[k]) {
      assert k == 0 || k == 1 || k == 2;
    }
    forall j, k | 0 <= j < k < |t| ensures t[j].cabNr != t[k].cabNr && WiredPinsDisjoint(t[j], t[k]) {
      assert (j == 0 && k == 1) || (j == 0 && k == 2) || (j == 1 && k == 2);
    }
  }

  /** Every entry of the three corrected tables passes the slot-by-slot check. */
  lemma ConstantEntryWellFormed(d: DrawerType)
    requires d in TRINKET1_SETUP_CORRECTED + TRINKET2_SETUP + TRINKET3_SETUP
    ensures WellFormedEntry(d)
  {
    assert DrawerBit(1) == 1 && DrawerBit(2) == 2 && DrawerBit(3) == 4;
    EntryBySlots(d);
  }

  lemma Trinket2WellFormed()
    ensures WellFormedTable(TRINKET2_SETUP)
  {
    var t := TRINKET2_SETUP;
    ConstantEntryWellFormed(t[0]);
    ConstantEntryWellFormed(t[1]);
    assert WiredPinsDisjoint(t[0], t[1]);
  }

  lemma Trinket3WellFormed()
    ensures WellFormedTable(TRINKET3_SETUP)
  {
    var t := TRINKET3_SETUP;
    ConstantEntryWellFormed(t[0]);
    ConstantEntryWellFormed(t[1]);
    assert WiredPinsDisjoint(t[0], t[1]);
  }
}
