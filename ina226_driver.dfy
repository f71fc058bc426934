/** The INA226 driver object: read-modify-write of the chip's 16-bit
    registers over the two-wire bus.

    The chip is an abstract register file, eight 16-bit words indexed by
    register address. The configuration setters and the alert-type setter
    read a register, clear a field (two for the conversion time), OR in a
    code (the translated alert type's, for the alert setter) and write the
    register back; the single-bit enables OR in a constant; the range
    setter, the reset and power-up write a whole word without reading; a
    single measurement writes the configuration word back unchanged. The
    pure functions below give the word each operation produces, and the
    lemmas state what that word means. */
module Ina226Driver {
  import opened Ina226Defs

  // ---------------------------------------------------------------------
  // Byte packing on the bus
  // ---------------------------------------------------------------------

  function HighByte(w: Word): Byte {
    (w >> 8) as Byte
  }

  function LowByte(w: Word): Byte {
    (w & 0xFF) as Byte
  }

  /** The word a register transfer carries when its most significant byte is
      `msb` and its least significant byte `lsb`. */
  function Join(msb: Byte, lsb: Byte): (w: Word)
    ensures HighByte(w) == msb && LowByte(w) == lsb
  {
    ((msb as Word) << 8) + (lsb as Word)
  }

  /** Splitting a word into its two bytes and joining them gives it back. */
  lemma JoinOfSplit(w: Word)
    ensures Join(HighByte(w), LowByte(w)) == w
  {
  }

  /** What the chip does with a write frame `[register, high byte, low byte]`. */
  function ChipWrite(regs: Registers, frame: seq<Byte>): Registers
    requires |frame| == 3 && frame[0] < 8
  {
    regs[frame[0] as int := Join(frame[1], frame[2])]
  }

  /** The two bytes the chip sends back when `reg` is read, high byte first. */
  function ChipAnswer(regs: Registers, reg: RegAddr): seq<Byte> {
    [HighByte(regs[reg]), LowByte(regs[reg])]
  }

  /** A word written as high byte then low byte and read back as
      `(MSByte << 8) + LSByte` is the word that was written, and the write
      touches no other register. */
  lemma BusRoundTrip(regs: Registers, reg: RegAddr, val: Word)
    ensures var after := ChipWrite(regs, [reg as Byte, HighByte(val), LowByte(val)]);
      Join(ChipAnswer(after, reg)[0], ChipAnswer(after, reg)[1]) == val
      && forall r: RegAddr :: r != reg ==> after[r] == regs[r]
  {
    AddressByte(reg);
    JoinOfSplit(val);
    assert ChipWrite(regs, [reg as Byte, HighByte(val), LowByte(val)]) == regs[reg := val];
  }

  /** A register address survives the trip through its bus byte. */
  lemma AddressByte(reg: RegAddr)
    ensures (reg as Byte) as int == reg as int
  {
  }

  // ---------------------------------------------------------------------
  // Configuration register fields
  // ---------------------------------------------------------------------

  /** `w` with the bits under `mask` replaced by `code`: the read-modify-write
      every setter performs (clear the field with `&= ~mask`, then `|= code`). */
  function SetField(w: Word, mask: Word, code: Word): (r: Word)
    requires (code & !mask) == 0
    ensures (r & mask) == code
    ensures (r & !mask) == (w & !mask)
  {
    (w & !mask) | code
  }

  // Facts about clearing and setting bits, stated on bare words so that the
  // solver decides them by bit-blasting.

  lemma ClearOrCommute(w: Word, m1: Word, x: Word, m2: Word, y: Word)
    requires (m1 & m2) == 0 && (x & !m1) == 0 && (y & !m2) == 0
    ensures ((((w & !m1) | x) & !m2) | y) == ((((w & !m2) | y) & !m1) | x)
  {
  }

  lemma ClearOrOverwrite(w: Word, m: Word, x: Word, y: Word)
    requires (x & !m) == 0
    ensures ((((w & !m) | x) & !m) | y) == ((w & !m) | y)
    ensures ((w & !m) | (w & m)) == w
  {
  }

  lemma SetFieldUnfold(w: Word, m: Word, x: Word)
    requires (x & !m) == 0
    ensures SetField(w, m, x) == (w & !m) | x
  {
  }

  lemma AndOverOr(w: Word, m1: Word, m2: Word)
    ensures ((w & m1) | (w & m2)) == (w & (m1 | m2))
  {
  }

  /** Fields under disjoint masks can be set in either order. */
  lemma SetFieldCommute(w: Word, m1: Word, x: Word, m2: Word, y: Word)
    requires (m1 & m2) == 0 && (x & !m1) == 0 && (y & !m2) == 0
    ensures SetField(SetField(w, m1, x), m2, y) == SetField(SetField(w, m2, y), m1, x)
  {
    SetFieldUnfold(w, m1, x);
    SetFieldUnfold(SetField(w, m1, x), m2, y);
    SetFieldUnfold(w, m2, y);
    SetFieldUnfold(SetField(w, m2, y), m1, x);
    ClearOrCommute(w, m1, x, m2, y);
  }

  /** Setting a field twice keeps the second code; writing back the code a
      field already holds changes nothing. */
  lemma SetFieldOverwrite(w: Word, m: Word, x: Word, y: Word)
    requires (x & !m) == 0 && (y & !m) == 0
    ensures SetField(SetField(w, m, x), m, y) == SetField(w, m, y)
    ensures SetField(w, m, w & m) == w
  {
    SetFieldUnfold(w, m, x);
    SetFieldUnfold(SetField(w, m, x), m, y);
    SetFieldUnfold(w, m, y);
    SetFieldUnfold(w, m, w & m);
    ClearOrOverwrite(w, m, x, y);
  }

  /** The configuration word after the averaging field is set to `a`. */
  function WithAverage(conf: Word, a: Averages): Word {
    AverageCodeInField(a);
    SetField(conf, AVG_MASK, a.Code())
  }

  /** The two conversion-time codes of `t`, at bits 3-5 and 6-8. */
  function ConvTimeBits(t: ConvTime): (bits: Word)
    ensures (bits & !(SHUNT_CT_MASK | BUS_CT_MASK)) == 0
    ensures (bits & SHUNT_CT_MASK) == t.Code() << 3 && (bits & BUS_CT_MASK) == t.Code() << 6
  {
    ConvTimeCodeInFields(t);
    (t.Code() << 3) | (t.Code() << 6)
  }

  /** The configuration word after both conversion-time fields are set to `t`. */
  function WithConvTime(conf: Word, t: ConvTime): Word {
    SetField(conf, SHUNT_CT_MASK | BUS_CT_MASK, ConvTimeBits(t))
  }

  /** The configuration word after the mode field is set to `m`. */
  function WithMeasureMode(conf: Word, m: MeasureMode): Word {
    MeasureModeCodeInField(m);
    SetField(conf, MODE_MASK, m.Code())
  }

  /** After setting the averages, the averaging field decodes to `a` and
      every other bit, hence the conversion times and the mode, is kept. */
  lemma WithAverageSpec(conf: Word, a: Averages)
    ensures AveragesOf(WithAverage(conf, a)) == a
    ensures (WithAverage(conf, a) & !AVG_MASK) == (conf & !AVG_MASK)
    ensures ShuntConvTimeOf(WithAverage(conf, a)) == ShuntConvTimeOf(conf)
    ensures BusConvTimeOf(WithAverage(conf, a)) == BusConvTimeOf(conf)
    ensures MeasureModeOf(WithAverage(conf, a)) == MeasureModeOf(conf)
  {
    var r := WithAverage(conf, a);
    AverageCodeInField(a);
    assert (r & AVG_MASK) == (a.Code() & AVG_MASK);
    DecodersReadOwnField(r, a.Code());
    DecodersReadOwnField(r, conf);
    assert (r & SHUNT_CT_MASK) == (conf & SHUNT_CT_MASK);
    assert (r & BUS_CT_MASK) == (conf & BUS_CT_MASK);
    assert (r & MODE_MASK) == (conf & MODE_MASK);
  }

  /** After setting the conversion time, both conversion-time fields decode
      to `t` and every other bit, hence the averages and the mode, is kept. */
  lemma WithConvTimeSpec(conf: Word, t: ConvTime)
    ensures ShuntConvTimeOf(WithConvTime(conf, t)) == t && BusConvTimeOf(WithConvTime(conf, t)) == t
    ensures (WithConvTime(conf, t) & !(SHUNT_CT_MASK | BUS_CT_MASK)) == (conf & !(SHUNT_CT_MASK | BUS_CT_MASK))
    ensures AveragesOf(WithConvTime(conf, t)) == AveragesOf(conf)
    ensures MeasureModeOf(WithConvTime(conf, t)) == MeasureModeOf(conf)
  {
    var r := WithConvTime(conf, t);
    ConvTimeCodeInFields(t);
    assert (r & SHUNT_CT_MASK) == ((t.Code() << 3) & SHUNT_CT_MASK);
    assert (r & BUS_CT_MASK) == ((t.Code() << 6) & BUS_CT_MASK);
    DecodersReadOwnField(r, t.Code() << 3);
    DecodersReadOwnField(r, t.Code() << 6);
    DecodersReadOwnField(r, conf);
    assert (r & AVG_MASK) == (conf & AVG_MASK);
    assert (r & MODE_MASK) == (conf & MODE_MASK);
  }

  /** After setting the mode, the mode field decodes to `m` and every other
      bit, hence the averages and the conversion times, is kept. */
  lemma WithMeasureModeSpec(conf: Word, m: MeasureMode)
    ensures MeasureModeOf(WithMeasureMode(conf, m)) == Some(m)
    ensures (WithMeasureMode(conf, m) & !MODE_MASK) == (conf & !MODE_MASK)
    ensures AveragesOf(WithMeasureMode(conf, m)) == AveragesOf(conf)
    ensures ShuntConvTimeOf(WithMeasureMode(conf, m)) == ShuntConvTimeOf(conf)
    ensures BusConvTimeOf(WithMeasureMode(conf, m)) == BusConvTimeOf(conf)
  {
    var r := WithMeasureMode(conf, m);
    MeasureModeCodeInField(m);
    assert (r & MODE_MASK) == (m.Code() & MODE_MASK);
    DecodersReadOwnField(r, m.Code());
    DecodersReadOwnField(r, conf);
    assert (r & AVG_MASK) == (conf & AVG_MASK);
    assert (r & SHUNT_CT_MASK) == (conf & SHUNT_CT_MASK);
    assert (r & BUS_CT_MASK) == (conf & BUS_CT_MASK);
  }

  /** The three configuration setters write disjoint fields, so the order in
      which two of them run does not matter. */
  lemma AverageConvTimeCommute(conf: Word, a: Averages, t: ConvTime)
    ensures WithAverage(WithConvTime(conf, t), a) == WithConvTime(WithAverage(conf, a), t)
  {
    AverageCodeInField(a);
    SetFieldCommute(conf, SHUNT_CT_MASK | BUS_CT_MASK, ConvTimeBits(t), AVG_MASK, a.Code());
  }

  lemma AverageModeCommute(conf: Word, a: Averages, m: MeasureMode)
    ensures WithAverage(WithMeasureMode(conf, m), a) == WithMeasureMode(WithAverage(conf, a), m)
  {
    AverageCodeInField(a);
    MeasureModeCodeInField(m);
    SetFieldCommute(conf, MODE_MASK, m.Code(), AVG_MASK, a.Code());
  }

  lemma ConvTimeModeCommute(conf: Word, t: ConvTime, m: MeasureMode)
    ensures WithConvTime(WithMeasureMode(conf, m), t) == WithMeasureMode(WithConvTime(conf, t), m)
  {
    MeasureModeCodeInField(m);
    SetFieldCommute(conf, MODE_MASK, m.Code(), SHUNT_CT_MASK | BUS_CT_MASK, ConvTimeBits(t));
  }

  /** Setting the averaging field twice keeps only the second value, and
      setting it to the value it already holds changes nothing. */
  lemma AverageOverwrite(conf: Word, a: Averages, b: Averages)
    ensures WithAverage(WithAverage(conf, a), b) == WithAverage(conf, b)
    ensures WithAverage(conf, AveragesOf(conf)) == conf
  {
    AverageCodeInField(a);
    AverageCodeInField(b);
    SetFieldOverwrite(conf, AVG_MASK, a.Code(), b.Code());
  }

  /** The same for the conversion times; a word whose two conversion-time
      fields agree is left as it is by writing that time back. */
  lemma ConvTimeOverwrite(conf: Word, s: ConvTime, t: ConvTime)
    ensures WithConvTime(WithConvTime(conf, s), t) == WithConvTime(conf, t)
    ensures ShuntConvTimeOf(conf) == BusConvTimeOf(conf) ==> WithConvTime(conf, ShuntConvTimeOf(conf)) == conf
  {
    SetFieldOverwrite(conf, SHUNT_CT_MASK | BUS_CT_MASK, ConvTimeBits(s), ConvTimeBits(t));
    var u := ShuntConvTimeOf(conf);
    if u == BusConvTimeOf(conf) {
      AndOverOr(conf, SHUNT_CT_MASK, BUS_CT_MASK);
      assert ConvTimeBits(u) == conf & (SHUNT_CT_MASK | BUS_CT_MASK);
      SetFieldOverwrite(conf, SHUNT_CT_MASK | BUS_CT_MASK, ConvTimeBits(u), ConvTimeBits(u));
    }
  }

  /** The same for the mode. */
  lemma ModeOverwrite(conf: Word, m: MeasureMode, n: MeasureMode)
    ensures WithMeasureMode(WithMeasureMode(conf, m), n) == WithMeasureMode(conf, n)
    ensures MeasureModeOf(conf).Some? ==> WithMeasureMode(conf, MeasureModeOf(conf).value) == conf
  {
    MeasureModeCodeInField(m);
    MeasureModeCodeInField(n);
    SetFieldOverwrite(conf, MODE_MASK, m.Code(), n.Code());
  }

  /** The configuration word the initialisation sequence leaves behind when
      the register held `reset` before it. */
  function InitConf(reset: Word): Word {
    WithMeasureMode(WithConvTime(WithAverage(reset, Average1), ConvTime1100), Continuous)
  }

  /** Initialisation selects no averaging, 1.1 ms for both conversions and
      continuous mode, and keeps the bits outside those fields. */
  lemma InitConfFields(reset: Word)
    ensures AveragesOf(InitConf(reset)) == Average1
    ensures ShuntConvTimeOf(InitConf(reset)) == ConvTime1100 && BusConvTimeOf(InitConf(reset)) == ConvTime1100
    ensures MeasureModeOf(InitConf(reset)) == Some(Continuous)
    ensures (InitConf(reset) & 0xF000) == (reset & 0xF000)
  {
    var c1 := WithAverage(reset, Average1);
    var c2 := WithConvTime(c1, ConvTime1100);
    WithAverageSpec(reset, Average1);
    WithConvTimeSpec(c1, ConvTime1100);
    WithMeasureModeSpec(c2, Continuous);
    assert (c1 & 0xF000) == (reset & 0xF000);
    assert (c2 & 0xF000) == (c1 & 0xF000);
  }

  // ---------------------------------------------------------------------
  // Calibration
  // ---------------------------------------------------------------------

  /** The calibration register value the range setter selects. */
  function CalibrationValue(range: CurrentRange): Word {
    match range
    case Ma400 => 2560
    case Ma800 => 1280
    case Ma1600 => 1024
    case Ma3200 => 512
  }

  /** The range a calibration value stands for, if any. */
  function RangeOfCalibration(cal: Word): (range: Option<CurrentRange>)
    ensures range.Some? ==> CalibrationValue(range.value) == cal
    ensures range.None? ==> forall r: CurrentRange :: CalibrationValue(r) != cal
  {
    if cal == 2560 then Some(Ma400)
    else if cal == 1280 then Some(Ma800)
    else if cal == 1024 then Some(Ma1600)
    else if cal == 512 then Some(Ma3200)
    else None
  }

  /** Distinct ranges get distinct calibration values, and a wider range a
      smaller one. */
  lemma CalibrationDeterminesRange(r1: CurrentRange, r2: CurrentRange)
    ensures RangeOfCalibration(CalibrationValue(r1)) == Some(r1)
    ensures r1.MaxMilliamps() < r2.MaxMilliamps() ==> CalibrationValue(r2) < CalibrationValue(r1)
  {
  }

  // ---------------------------------------------------------------------
  // Mask/enable register
  // ---------------------------------------------------------------------

  /** The alert type the alert-type setter stores: the two current alerts become
      the shunt alerts of the same direction, the others are kept. */
  function StoredAlertType(t: AlertType): (s: AlertType)
    ensures !s.IsCurrentAlert()
    ensures s.IsOverLimit() == t.IsOverLimit()
    ensures t.IsCurrentAlert() ==> s.ShuntOver? || s.ShuntUnder?
    ensures !t.IsCurrentAlert() ==> s == t
  {
    match t
    case CurrentOver => ShuntOver
    case CurrentUnder => ShuntUnder
    case _ => t
  }

  /** The mask/enable word after the alert function field is set for `t`. */
  function WithAlertType(maskEn: Word, t: AlertType): Word {
    AlertCodeInField(StoredAlertType(t));
    SetField(maskEn, ALERT_MASK, StoredAlertType(t).Code())
  }

  /** After setting the alert type, the alert function field holds the single
      bit of the stored type and bits 0-10 are kept. */
  lemma WithAlertTypeSpec(maskEn: Word, t: AlertType)
    ensures AlertTypeOf(WithAlertType(maskEn, t)) == Some(StoredAlertType(t))
    ensures (WithAlertType(maskEn, t) & !ALERT_MASK) == (maskEn & !ALERT_MASK)
  {
    var r := WithAlertType(maskEn, t);
    AlertCodeInField(StoredAlertType(t));
    assert (r & ALERT_MASK) == (StoredAlertType(t).Code() & ALERT_MASK);
    DecodersReadOwnField(r, StoredAlertType(t).Code());
  }

  /** Setting the alert type twice keeps only the second, and setting the
      type the field already holds changes nothing. */
  lemma AlertTypeOverwrite(maskEn: Word, s: AlertType, t: AlertType)
    ensures WithAlertType(WithAlertType(maskEn, s), t) == WithAlertType(maskEn, t)
    ensures AlertTypeOf(maskEn).Some? ==> WithAlertType(maskEn, AlertTypeOf(maskEn).value) == maskEn
  {
    AlertCodeInField(StoredAlertType(s));
    AlertCodeInField(StoredAlertType(t));
    SetFieldOverwrite(maskEn, ALERT_MASK, StoredAlertType(s).Code(), StoredAlertType(t).Code());
  }

  /** The word with every bit of `bits` set. */
  function WithBits(w: Word, bits: Word): (r: Word)
    ensures (r & bits) == bits
    ensures (r & !bits) == (w & !bits)
  {
    w | bits
  }

  /** Setting the same bits again changes nothing, and the single-bit
      enables leave the alert function field alone. */
  lemma WithBitsIdempotent(w: Word, bits: Word)
    ensures WithBits(WithBits(w, bits), bits) == WithBits(w, bits)
    ensures (bits & ALERT_MASK) == 0 ==> AlertTypeOf(WithBits(w, bits)) == AlertTypeOf(w)
  {
  }

  /** The single-bit enables and the alert-type setter touch disjoint bits of
      mask/enable, so they may run in either order. */
  lemma AlertTypeEnablesCommute(maskEn: Word, bits: Word, t: AlertType)
    requires (bits & ALERT_MASK) == 0
    ensures WithAlertType(WithBits(maskEn, bits), t) == WithBits(WithAlertType(maskEn, t), bits)
  {
    AlertCodeInField(StoredAlertType(t));
  }

  /** Polls for the conversion-ready flag. `answers` are the successive
      values the chip returns for the mask/enable register; the result is
      the index of the first one with the flag set, or None when none of
      them has it (the driver would keep polling). */
  method PollConversionReady(answers: seq<Word>) returns (ready: Option<nat>)
    ensures ready.Some? ==> ready.value < |answers| && (answers[ready.value] & CVRF) != 0
    ensures ready.Some? ==> forall j :: 0 <= j < ready.value ==> (answers[j] & CVRF) == 0
    ensures ready.None? ==> forall j :: 0 <= j < |answers| ==> (answers[j] & CVRF) == 0
  {
    var convReady: Word := 0x0000;
    var polls := 0;
    while convReady == 0 && polls < |answers|
      invariant 0 <= polls <= |answers|
      invariant convReady == if polls == 0 then 0 else answers[polls - 1] & CVRF
      invariant forall j :: 0 <= j < polls - 1 ==> (answers[j] & CVRF) == 0
    {
      convReady := answers[polls] & 0x0008;
      polls := polls + 1;
    }
    ready := if convReady != 0 then Some(polls - 1) else None;
  }

  // ---------------------------------------------------------------------
  // The driver object
  // ---------------------------------------------------------------------

  /** The driver object. The constructors set only the bus address and take
      the chip's current registers; every other field starts with an
      arbitrary value, as the driver leaves it uninitialised. */
  class Ina226 {
    var i2cAddress: int
    /** The chip's registers, as the bus reads and writes them. */
    var regs: Registers
    var calVal: Word
    var confRegCopy: Word
    var overflow: bool
    var convAlert: bool
    var limitAlert: bool
    var deviceAverages: Averages
    var deviceConvTime: ConvTime
    var deviceMeasureMode: MeasureMode
    var deviceCurrentRange: CurrentRange
    var deviceAlertType: AlertType

    /** A driver for the chip at `addr`, whose registers currently hold `chip`. */
    constructor (addr: int, chip: Registers)
      ensures i2cAddress == addr && regs == chip
    {
      i2cAddress := addr;
      regs := chip;
    }

    /** A driver for the chip at the default address. */
    constructor Default(chip: Registers)
      ensures i2cAddress == DEFAULT_ADDRESS && regs == chip
    {
      i2cAddress := 0x40;
      regs := chip;
    }

    /** Sends `val` to register `reg`, high byte first. */
    method WriteRegister(reg: RegAddr, val: Word)
      modifies this`regs
      ensures regs == old(regs)[reg := val]
    {
      var lVal := LowByte(val);
      var hVal := HighByte(val);
      regs := ChipWrite(regs, [reg as Byte, hVal, lVal]);
      JoinOfSplit(val);
    }

    /** Reads register `reg`: the chip answers high byte first. */
    method ReadRegister(reg: RegAddr) returns (regValue: Word)
      ensures regValue == regs[reg]
    {
      var answer := ChipAnswer(regs, reg);
      var msByte := answer[0];
      var lsByte := answer[1];
      regValue := Join(msByte, lsByte);
      JoinOfSplit(regs[reg]);
    }

    method ResetChip()
      modifies this`regs
      ensures regs == old(regs)[CONF_REG := RST]
    {
      WriteRegister(CONF_REG, RST);
    }

    method SetAverage(averages: Averages)
      modifies this`regs, this`deviceAverages
      ensures deviceAverages == averages
      ensures regs == old(regs)[CONF_REG := WithAverage(old(regs)[CONF_REG], averages)]
      ensures AveragesOf(regs[CONF_REG]) == averages
    {
      deviceAverages := averages;
      var currentConfReg := ReadRegister(CONF_REG);
      currentConfReg := currentConfReg & !AVG_MASK;
      currentConfReg := currentConfReg | averages.Code();
      WriteRegister(CONF_REG, currentConfReg);
      WithAverageSpec(old(regs)[CONF_REG], averages);
    }

    method SetConversionTime(convTime: ConvTime)
      modifies this`regs, this`deviceConvTime
      ensures deviceConvTime == convTime
      ensures regs == old(regs)[CONF_REG := WithConvTime(old(regs)[CONF_REG], convTime)]
      ensures ShuntConvTimeOf(regs[CONF_REG]) == convTime && BusConvTimeOf(regs[CONF_REG]) == convTime
    {
      deviceConvTime := convTime;
      var currentConfReg := ReadRegister(CONF_REG);
      currentConfReg := currentConfReg & !BUS_CT_MASK;
      currentConfReg := currentConfReg & !SHUNT_CT_MASK;
      var convMask := convTime.Code() << 3;
      currentConfReg := currentConfReg | convMask;
      convMask := convTime.Code() << 6;
      currentConfReg := currentConfReg | convMask;
      WriteRegister(CONF_REG, currentConfReg);
      WithConvTimeSpec(old(regs)[CONF_REG], convTime);
    }

    method SetMeasureMode(mode: MeasureMode)
      modifies this`regs, this`deviceMeasureMode
      ensures deviceMeasureMode == mode
      ensures regs == old(regs)[CONF_REG := WithMeasureMode(old(regs)[CONF_REG], mode)]
      ensures MeasureModeOf(regs[CONF_REG]) == Some(mode)
    {
      deviceMeasureMode := mode;
      var currentConfReg := ReadRegister(CONF_REG);
      currentConfReg := currentConfReg & !MODE_MASK;
      currentConfReg := currentConfReg | mode.Code();
      WriteRegister(CONF_REG, currentConfReg);
      WithMeasureModeSpec(old(regs)[CONF_REG], mode);
    }

    method SetCurrentRange(range: CurrentRange)
      modifies this`regs, this`deviceCurrentRange, this`calVal
      ensures deviceCurrentRange == range
      ensures calVal == CalibrationValue(range)
      ensures regs == old(regs)[CAL_REG := calVal]
    {
      deviceCurrentRange := range;
      match range {
        case Ma400 => calVal := 2560;
        case Ma800 => calVal := 1280;
        case Ma1600 => calVal := 1024;
        case Ma3200 => calVal := 512;
      }
      WriteRegister(CAL_REG, calVal);
    }

    /** Resets the chip, then selects no averaging, 1.1 ms conversions,
        continuous mode and the 3.2 A range, and clears two of the flags. */
    method Init()
      modifies this`regs, this`deviceAverages, this`deviceConvTime, this`deviceMeasureMode
      modifies this`deviceCurrentRange, this`calVal, this`convAlert, this`limitAlert
      ensures regs == old(regs)[CONF_REG := InitConf(RST)][CAL_REG := CalibrationValue(Ma3200)]
      ensures calVal == CalibrationValue(Ma3200)
      ensures deviceAverages == Average1 && deviceConvTime == ConvTime1100
      ensures deviceMeasureMode == Continuous && deviceCurrentRange == Ma3200
      ensures !convAlert && !limitAlert
      ensures AveragesOf(regs[CONF_REG]) == Average1 && MeasureModeOf(regs[CONF_REG]) == Some(Continuous)
      ensures ShuntConvTimeOf(regs[CONF_REG]) == ConvTime1100 && BusConvTimeOf(regs[CONF_REG]) == ConvTime1100
    {
      InitConfFields(RST);
      ResetChip();
      SetAverage(Average1);
      SetConversionTime(ConvTime1100);
      SetMeasureMode(Continuous);
      SetCurrentRange(Ma3200);
      convAlert := false;
      limitAlert := false;
    }

    /** Saves the configuration register, then switches the chip to power-down. */
    method PowerDown()
      modifies this`regs, this`confRegCopy, this`deviceMeasureMode
      ensures confRegCopy == old(regs)[CONF_REG]
      ensures deviceMeasureMode == MeasureMode.PowerDown
      ensures regs == old(regs)[CONF_REG := WithMeasureMode(old(regs)[CONF_REG], MeasureMode.PowerDown)]
      ensures MeasureModeOf(regs[CONF_REG]) == Some(MeasureMode.PowerDown)
    {
      confRegCopy := ReadRegister(CONF_REG);
      SetMeasureMode(MeasureMode.PowerDown);
    }

    /** Writes the saved configuration back. */
    method PowerUp()
      modifies this`regs
      ensures regs == old(regs)[CONF_REG := confRegCopy]
    {
      WriteRegister(CONF_REG, confRegCopy);
    }

    /** Power-down followed by power-up leaves every register as it was; the
        saved copy holds the configuration word, and the cached mode still
        says power-down although the chip is back in its previous mode. */
    method PowerCycle()
      modifies this`regs, this`confRegCopy, this`deviceMeasureMode
      ensures regs == old(regs)
      ensures confRegCopy == old(regs)[CONF_REG]
      ensures deviceMeasureMode == MeasureMode.PowerDown
    {
      PowerDown();
      PowerUp();
    }

    method SetAlertPinActiveHigh()
      modifies this`regs
      ensures regs == old(regs)[MASK_EN_REG := WithBits(old(regs)[MASK_EN_REG], ALERT_POL)]
    {
      var val := ReadRegister(MASK_EN_REG);
      val := val | ALERT_POL;
      WriteRegister(MASK_EN_REG, val);
    }

    method EnableAlertLatch()
      modifies this`regs
      ensures regs == old(regs)[MASK_EN_REG := WithBits(old(regs)[MASK_EN_REG], LATCH_EN)]
    {
      var val := ReadRegister(MASK_EN_REG);
      val := val | LATCH_EN;
      WriteRegister(MASK_EN_REG, val);
    }

    method EnableConvReadyAlert()
      modifies this`regs
      ensures regs == old(regs)[MASK_EN_REG := WithBits(old(regs)[MASK_EN_REG], CNVR)]
    {
      var val := ReadRegister(MASK_EN_REG);
      val := val | CNVR;
      WriteRegister(MASK_EN_REG, val);
    }

    /** Selects the alert function `alertType` and writes `alertLimit` (the
        limit already converted to register units) to the alert limit register. */
    method SetAlertType(alertType: AlertType, alertLimit: Word)
      modifies this`regs, this`deviceAlertType
      ensures deviceAlertType == StoredAlertType(alertType)
      ensures regs == old(regs)[ALERT_LIMIT_REG := alertLimit]
                               [MASK_EN_REG := WithAlertType(old(regs)[MASK_EN_REG], alertType)]
      ensures AlertTypeOf(regs[MASK_EN_REG]) == Some(deviceAlertType)
    {
      var stored := StoredAlertType(alertType);
      deviceAlertType := stored;
      WriteRegister(ALERT_LIMIT_REG, alertLimit);
      var value := ReadRegister(MASK_EN_REG);
      ghost var wanted := WithAlertType(value, alertType);
      AlertCodeInField(stored);
      SetFieldUnfold(value, ALERT_MASK, stored.Code());
      value := value & !ALERT_MASK;
      value := value | stored.Code();
      assert value == wanted;
      WriteRegister(MASK_EN_REG, value);
      WithAlertTypeSpec(old(regs)[MASK_EN_REG], alertType);
    }

    /** Copies the overflow, conversion-ready and alert flags out of the
        mask/enable register. */
    method ReadAndClearFlags()
      modifies this`overflow, this`convAlert, this`limitAlert
      ensures overflow == ((regs[MASK_EN_REG] & OVF) != 0)
      ensures convAlert == ((regs[MASK_EN_REG] & CVRF) != 0)
      ensures limitAlert == ((regs[MASK_EN_REG] & AFF) != 0)
    {
      var value := ReadRegister(MASK_EN_REG);
      overflow := ((value >> 2) & 0x0001) != 0;
      convAlert := ((value >> 3) & 0x0001) != 0;
      limitAlert := ((value >> 4) & 0x0001) != 0;
    }

    /** Reads mask/enable once, then polls it until a conversion is ready. */
    method WaitUntilConversionCompleted(answers: seq<Word>) returns (ready: Option<nat>)
      ensures ready.Some? ==> ready.value < |answers| && (answers[ready.value] & CVRF) != 0
      ensures ready.Some? ==> forall j :: 0 <= j < ready.value ==> (answers[j] & CVRF) == 0
      ensures ready.None? ==> forall j :: 0 <= j < |answers| ==> (answers[j] & CVRF) == 0
    {
      var val := ReadRegister(MASK_EN_REG);
      ready := PollConversionReady(answers);
    }

    /** Writes the configuration register back unchanged to start a
        triggered conversion, then polls until it is ready. */
    method StartSingleMeasurement(answers: seq<Word>) returns (ready: Option<nat>)
      modifies this`regs
      ensures regs == old(regs)
      ensures ready.Some? ==> ready.value < |answers| && (answers[ready.value] & CVRF) != 0
      ensures ready.Some? ==> forall j :: 0 <= j < ready.value ==> (answers[j] & CVRF) == 0
      ensures ready.None? ==> forall j :: 0 <= j < |answers| ==> (answers[j] & CVRF) == 0
    {
      var val := ReadRegister(MASK_EN_REG);
      val := ReadRegister(CONF_REG);
      WriteRegister(CONF_REG, val);
      ready := PollConversionReady(answers);
    }
  }
}
