/** Register map, flag bits and enumeration codes of the INA226 current and
    power monitor, as the driver's header declares them, plus the field
    masks its implementation file writes as literals.

    Every register of the chip is 16 bits wide and is addressed by one byte.
    The enumerations the driver's setters take are datatypes here; `Code()`
    gives the bit pattern the header assigns to each value, and the `...Of`
    functions decode a register value back into the enumeration. */
module Ina226Defs {

  type Byte = bv8
  type Word = bv16

  /** The address of one of the chip's eight registers; on the bus it is the
      first byte of every transfer. */
  newtype RegAddr = a: int | 0 <= a < 8

  /** The chip's register file: the word held by each register, indexed by
      its address. */
  type Registers = s: seq<Word> | |s| == 8 witness [0, 0, 0, 0, 0, 0, 0, 0]

  datatype Option<T> = None | Some(value: T)

  /** I2C address used when a driver object is built without one. */
  const DEFAULT_ADDRESS: int := 0x40

  // Register addresses.
  const CONF_REG: RegAddr := 0x00         // configuration
  const SHUNT_REG: RegAddr := 0x01        // shunt voltage
  const BUS_REG: RegAddr := 0x02          // bus voltage
  const PWR_REG: RegAddr := 0x03          // power
  const CURRENT_REG: RegAddr := 0x04      // current through the shunt
  const CAL_REG: RegAddr := 0x05          // calibration
  const MASK_EN_REG: RegAddr := 0x06      // mask/enable
  const ALERT_LIMIT_REG: RegAddr := 0x07  // alert limit

  // Parameters and flag bits.
  const RST: Word := 0x8000        // reset bit of the configuration register
  const AFF: Word := 0x0010        // alert function flag
  const CVRF: Word := 0x0008       // conversion ready flag
  const OVF: Word := 0x0004        // math overflow flag
  const ALERT_POL: Word := 0x0002  // alert pin active-high when set
  const LATCH_EN: Word := 0x0001   // alert flag latched until mask/enable is read

  // Bit fields the driver's setters clear before writing a code. The header
  // declares none of these: they are literals in the implementation file.
  const AVG_MASK: Word := 0x0E00       // averaging mode, configuration bits 9-11
  const BUS_CT_MASK: Word := 0x01C0    // bus voltage conversion time, bits 6-8
  const SHUNT_CT_MASK: Word := 0x0038  // shunt voltage conversion time, bits 3-5
  const MODE_MASK: Word := 0x0007      // operating mode, bits 0-2
  const ALERT_MASK: Word := 0xF800     // alert function select, mask/enable bits 11-15
  const CNVR: Word := 0x0400           // conversion ready alert enable, mask/enable bit 10

  /** True when exactly one bit of `w` is set. */
  predicate IsSingleBit(w: Word) {
    w != 0 && (w & (w - 1)) == 0
  }

  /** Number of samples averaged per conversion. */
  datatype Averages =
    | Average1 | Average4 | Average16 | Average64
    | Average128 | Average256 | Average512 | Average1024
  {
    function Code(): Word {
      match this
      case Average1 => 0x0000
      case Average4 => 0x0200
      case Average16 => 0x0400
      case Average64 => 0x0600
      case Average128 => 0x0800
      case Average256 => 0x0A00
      case Average512 => 0x0C00
      case Average1024 => 0x0E00
    }
  }

  /** Conversion time of one shunt or bus measurement, in microseconds. */
  datatype ConvTime =
    | ConvTime140 | ConvTime204 | ConvTime332 | ConvTime588
    | ConvTime1100 | ConvTime2116 | ConvTime4156 | ConvTime8244
  {
    function Code(): Word {
      match this
      case ConvTime140 => 0
      case ConvTime204 => 1
      case ConvTime332 => 2
      case ConvTime588 => 3
      case ConvTime1100 => 4
      case ConvTime2116 => 5
      case ConvTime4156 => 6
      case ConvTime8244 => 7
    }
  }

  /** The operating modes the driver offers (the chip has more codes than these). */
  datatype MeasureMode = PowerDown | Triggered | Continuous
  {
    function Code(): Word {
      match this
      case PowerDown => 0
      case Triggered => 3
      case Continuous => 7
    }
  }

  /** What the alert pin watches. The two current alerts are not register
      codes: they are sentinels the driver translates into shunt alerts. */
  datatype AlertType =
    | ShuntOver | ShuntUnder | BusOver | BusUnder | PowerOver
    | CurrentOver | CurrentUnder
  {
    function Code(): Word {
      match this
      case ShuntOver => 0x8000
      case ShuntUnder => 0x4000
      case BusOver => 0x2000
      case BusUnder => 0x1000
      case PowerOver => 0x0800
      case CurrentOver => 0xFFFE
      case CurrentUnder => 0xFFFF
    }

    predicate IsCurrentAlert() {
      CurrentOver? || CurrentUnder?
    }

    /** True when the alert fires above its limit rather than below it. */
    predicate IsOverLimit() {
      ShuntOver? || BusOver? || PowerOver? || CurrentOver?
    }
  }

  /** Full-scale current of the measuring ranges the driver's range setter handles. */
  datatype CurrentRange = Ma400 | Ma800 | Ma1600 | Ma3200
  {
    function MaxMilliamps(): nat {
      match this
      case Ma400 => 400
      case Ma800 => 800
      case Ma1600 => 1600
      case Ma3200 => 3200
    }
  }

  /** The averaging mode a configuration word selects. */
  function AveragesOf(conf: Word): (a: Averages)
    ensures a.Code() == (conf & AVG_MASK)
  {
    var field := conf & AVG_MASK;
    if field == 0x0000 then Average1
    else if field == 0x0200 then Average4
    else if field == 0x0400 then Average16
    else if field == 0x0600 then Average64
    else if field == 0x0800 then Average128
    else if field == 0x0A00 then Average256
    else if field == 0x0C00 then Average512
    else Average1024
  }

  /** The conversion time a three-bit code selects. */
  function ConvTimeOfCode(code: Word): (t: ConvTime)
    requires code <= 7
    ensures t.Code() == code
  {
    if code == 0 then ConvTime140
    else if code == 1 then ConvTime204
    else if code == 2 then ConvTime332
    else if code == 3 then ConvTime588
    else if code == 4 then ConvTime1100
    else if code == 5 then ConvTime2116
    else if code == 6 then ConvTime4156
    else ConvTime8244
  }

  /** The shunt voltage conversion time a configuration word selects. */
  function ShuntConvTimeOf(conf: Word): (t: ConvTime)
    ensures t.Code() << 3 == (conf & SHUNT_CT_MASK)
  {
    ConvTimeOfCode((conf & SHUNT_CT_MASK) >> 3)
  }

  /** The bus voltage conversion time a configuration word selects. */
  function BusConvTimeOf(conf: Word): (t: ConvTime)
    ensures t.Code() << 6 == (conf & BUS_CT_MASK)
  {
    ConvTimeOfCode((conf & BUS_CT_MASK) >> 6)
  }

  /** The operating mode a configuration word selects, if it is one the driver names. */
  function MeasureModeOf(conf: Word): (m: Option<MeasureMode>)
    ensures m.Some? ==> m.value.Code() == (conf & MODE_MASK)
    ensures m.None? ==> forall mode: MeasureMode :: mode.Code() != (conf & MODE_MASK)
  {
    var field := conf & MODE_MASK;
    if field == 0 then Some(PowerDown)
    else if field == 3 then Some(Triggered)
    else if field == 7 then Some(Continuous)
    else None
  }

  /** The alert function a mask/enable word selects, if its alert field holds
      exactly one of the five register codes. */
  function AlertTypeOf(maskEn: Word): (t: Option<AlertType>)
    ensures t.Some? ==> !t.value.IsCurrentAlert() && t.value.Code() == (maskEn & ALERT_MASK)
    ensures t.None? ==> forall a: AlertType :: !a.IsCurrentAlert() ==> a.Code() != (maskEn & ALERT_MASK)
  {
    var field := maskEn & ALERT_MASK;
    if field == 0x8000 then Some(ShuntOver)
    else if field == 0x4000 then Some(ShuntUnder)
    else if field == 0x2000 then Some(BusOver)
    else if field == 0x1000 then Some(BusUnder)
    else if field == 0x0800 then Some(PowerOver)
    else None
  }

  /** Each decoder reads its own field and nothing else. */
  lemma DecodersReadOwnField(x: Word, y: Word)
    ensures (x & AVG_MASK) == (y & AVG_MASK) ==> AveragesOf(x) == AveragesOf(y)
    ensures (x & SHUNT_CT_MASK) == (y & SHUNT_CT_MASK) ==> ShuntConvTimeOf(x) == ShuntConvTimeOf(y)
    ensures (x & BUS_CT_MASK) == (y & BUS_CT_MASK) ==> BusConvTimeOf(x) == BusConvTimeOf(y)
    ensures (x & MODE_MASK) == (y & MODE_MASK) ==> MeasureModeOf(x) == MeasureModeOf(y)
    ensures (x & ALERT_MASK) == (y & ALERT_MASK) ==> AlertTypeOf(x) == AlertTypeOf(y)
  {
  }

  /** Every averaging code is a multiple of 0x0200 inside bits 9-11, so it can
      be OR-ed into a cleared field without touching any other bit, and
      decoding the field gives the averaging mode back. */
  lemma AverageCodeInField(a: Averages)
    ensures (a.Code() & !AVG_MASK) == 0 && a.Code() % 0x0200 == 0
    ensures AveragesOf(a.Code()) == a
  {
  }

  /** Every conversion-time code fits in three bits, so shifted left by 3 and
      by 6 it stays inside the shunt and bus fields, and decodes back. */
  lemma ConvTimeCodeInFields(t: ConvTime)
    ensures t.Code() <= 7
    ensures ((t.Code() << 3) & !SHUNT_CT_MASK) == 0 && ((t.Code() << 6) & !BUS_CT_MASK) == 0
    ensures ShuntConvTimeOf(t.Code() << 3) == t && BusConvTimeOf(t.Code() << 6) == t
  {
  }

  /** The three mode codes lie inside bits 0-2 and decode back. */
  lemma MeasureModeCodeInField(m: MeasureMode)
    ensures (m.Code() & !MODE_MASK) == 0
    ensures MeasureModeOf(m.Code()) == Some(m)
  {
  }

  /** The five register alert codes are single bits inside bits 11-15, pairwise
      distinct, and decode back; the two current sentinels have bits outside
      that field, so they cannot be OR-ed in as they are. */
  lemma AlertCodeInField(a: AlertType)
    ensures !a.IsCurrentAlert() ==> IsSingleBit(a.Code()) && (a.Code() & !ALERT_MASK) == 0
    ensures !a.IsCurrentAlert() ==> AlertTypeOf(a.Code()) == Some(a)
    ensures a.IsCurrentAlert() ==> (a.Code() & !ALERT_MASK) != 0
  {
  }

  lemma AlertCodesDisjoint(a: AlertType, b: AlertType)
    requires !a.IsCurrentAlert() && !b.IsCurrentAlert() && a != b
    ensures (a.Code() & b.Code()) == 0
  {
  }

  /** The flag constants are the single bits 2, 3 and 4. */
  lemma FlagBits()
    ensures OVF == 1 << 2 && CVRF == 1 << 3 && AFF == 1 << 4
    ensures IsSingleBit(OVF) && IsSingleBit(CVRF) && IsSingleBit(AFF)
  {
  }
}
