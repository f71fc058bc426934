# INA226_WE register encoding in Dafny

A model of the register-level core of the INA226_WE Arduino driver for the
INA226 current and power monitor. The driver talks to the chip over a
two-wire bus, one 16-bit register at a time:

- `setAverage` and `setMeasureMode` read the configuration register, clear
  one bit field, OR in the enumeration code and write the register back.
- `setConversionTime` clears two fields, the shunt and the bus conversion
  time, and ORs the same code into both, shifted by 3 and by 6.
- The mask/enable part of `setAlertType` clears the alert field and ORs in
  the code of the translated alert type, which can differ from the
  argument.
- `setAlertPinActiveHigh`, `enableAlertLatch` and `enableConvReadyAlert`
  read mask/enable, OR in one constant bit and write it back.
- `setCurrentRange` picks a calibration value from a table and writes it
  without reading; `reset_INA226` writes the reset word and `powerUp`
  writes the saved configuration word, also without reading.
- `readAndClearFlags` and `waitUntilConversionCompleted` only read.
  `startSingleMeasurement` writes the configuration word back unchanged,
  which triggers a conversion, and then polls.

The project has two files and one class:

- `ina226_defs.dfy` (module `Ina226Defs`) models the header. It holds the
  register addresses, the flag bits, the default bus address and the
  enumerations. The enumerations are datatypes whose `Code()` is the
  header's bit pattern. It also holds decoders from a register word back to
  an enumeration value, and lemmas saying each code lies inside the field
  its setter clears.
- `ina226_driver.dfy` (module `Ina226Driver`) models the implementation
  file. The class `Ina226` has the driver's fields (`calVal`,
  `confRegCopy`, the `overflow`/`convAlert`/`limitAlert` flags, the
  `device...` settings) and `regs`, the chip's register file. It is a
  total map from the eight register addresses 0x00..0x07 to 16-bit words,
  written as a length-8 sequence indexed by address.
- The methods follow the driver's bodies step by step. Each
  read-modify-write setter's `ensures` states the new register file
  through a pure function of the old word: `WithAverage`, `WithConvTime`,
  `WithMeasureMode`, `WithAlertType`, `WithBits`. The methods that write
  without reading state the word they store: `val` for `WriteRegister`,
  `RST` for `ResetChip`, `calVal` for `SetCurrentRange` and `confRegCopy`
  for `PowerUp`.
- Lemmas state what those functions mean:
  - the field now decodes to the requested value (for the alert type, to
    the translated type the setter stores);
  - every other bit is kept;
  - setters of different fields commute: the three configuration setters
    pairwise, and the alert-type setter with the single-bit enables;
  - writing a field twice keeps the second value;
  - writing back the value a field already holds changes nothing.
- The bus is modelled as byte frames. A write sends
  `[register, high byte, low byte]`, a read returns `[high byte, low byte]`
  and the chip stores the word the two bytes make up.

The implementation file and the header come from different revisions of
the driver. The model follows the implementation file's bodies and takes
the enumeration codes from the header:

- The implementation's range setter handles four ranges, MA_400, MA_800,
  MA_1600 and MA_3200. The header's `INA226_CURRENT_RANGE` declares only
  the first two; the model has all four.
- The implementation spells the continuous mode `CONTINOUS`, the header
  `CONTINUOUS` (code 7); the model calls it `Continuous`.
- The implementation defines the constructors `INA226_WE(int addr)` and
  `INA226_WE()` (address 0x40). The header instead declares default
  arguments and a `TwoWire*` variant. The model has the two constructors
  the implementation defines.
- Methods the header declares without a body in the implementation file
  are not modelled: `setResistorRange`, `getShuntVoltage_V`,
  `getCurrent_A`, `startSingleMeasurementNoWait`, `isBusy`, the
  two-argument `setConversionTime` and `getI2cErrorCode`. The header's
  `bool init()` is modelled as the implementation's `void init()`.

## Model

| member | source | states |
|---|---|---|
| Ina226Defs.Averages.Code | src/INA226_WE.h:31-40 | the header codes 0x0000..0x0E00 of AVERAGE_1..AVERAGE_1024; AverageCodeInField states they fit the field |
| Ina226Defs.ConvTime.Code | src/INA226_WE.h:42-51 | the header codes 0..7 of CONV_TIME_140..CONV_TIME_8244; ConvTimeCodeInFields states they fit the fields |
| Ina226Defs.MeasureMode.Code | src/INA226_WE.h:53-63 | the header codes 0, 3, 7 of POWER_DOWN, TRIGGERED, CONTINUOUS; MeasureModeCodeInField states they fit the field |
| Ina226Defs.AlertType.Code | src/INA226_WE.h:66-75 | the header codes of the seven alert types, including the sentinels 0xFFFE and 0xFFFF; AlertCodeInField states which fit the field |
| Ina226Defs.AveragesOf | src/INA226_WE.h:31-40 | the averaging mode a configuration word selects; its code is exactly the word's bits 9-11 |
| Ina226Defs.ConvTimeOfCode | src/INA226_WE.h:42-51 | every three-bit code names the conversion time whose header code it is |
| Ina226Defs.ShuntConvTimeOf | src/INA226_WE.h:42-51 | the shunt conversion time a word selects; its code shifted left by 3 is exactly bits 3-5 |
| Ina226Defs.BusConvTimeOf | src/INA226_WE.h:42-51 | the bus conversion time a word selects; its code shifted left by 6 is exactly bits 6-8 |
| Ina226Defs.MeasureModeOf | src/INA226_WE.h:53-63 | the mode bits 0-2 select; None exactly when no named mode has that code |
| Ina226Defs.AlertTypeOf | src/INA226_WE.h:66-75 | the alert function bits 11-15 select; None exactly when no register alert code equals the field |
| Ina226Defs.DecodersReadOwnField | src/INA226_WE.h:31-75 | each decoder depends only on the bits of its own field |
| Ina226Defs.AverageCodeInField | src/INA226_WE.h:31-40 | every averaging code is a multiple of 0x0200 inside 0x0E00 and decodes back to itself |
| Ina226Defs.ConvTimeCodeInFields | src/INA226_WE.h:42-51 | every conversion-time code is at most 7; shifted by 3 and by 6 it stays inside 0x0038 and 0x01C0 and decodes back |
| Ina226Defs.MeasureModeCodeInField | src/INA226_WE.h:53-63 | the mode codes 0, 3 and 7 lie inside 0x0007 and decode back |
| Ina226Defs.AlertCodeInField | src/INA226_WE.h:66-75 | the five register alert codes are single bits inside 0xF800 that decode back; CURRENT_OVER and CURRENT_UNDER have bits outside that field |
| Ina226Defs.AlertCodesDisjoint | src/INA226_WE.h:67-71 | two different register alert codes share no bit |
| Ina226Defs.FlagBits | src/INA226_WE.h:100-102 | OVF, CVRF and AFF are the single bits 2, 3 and 4 |
| Ina226Driver.HighByte | src/INA226_WE.cpp:227 | the high byte `val >> 8` sent first |
| Ina226Driver.LowByte | src/INA226_WE.cpp:226 | the low byte `val & 255` sent second |
| Ina226Driver.ChipWrite | src/INA226_WE.cpp:228-230 | the chip side of a write frame `[register, high byte, low byte]`: that register now holds the joined word; its partner is BusRoundTrip |
| Ina226Driver.ChipAnswer | src/INA226_WE.cpp:240-244 | the chip side of a read: the register's high byte then its low byte; its partner is BusRoundTrip |
| Ina226Driver.Join | src/INA226_WE.cpp:245 | the word rebuilt as `(MSByte << 8) + LSByte` has those two bytes as its high and low byte |
| Ina226Driver.JoinOfSplit | src/INA226_WE.cpp:226-227 | splitting a word into `val >> 8` and `val & 255` and joining them gives the word back |
| Ina226Driver.BusRoundTrip | src/INA226_WE.cpp:224-247 | a word written high byte first and read back is the word written, and no other register changes |
| Ina226Driver.SetField | src/INA226_WE.cpp:48-49 | clearing a field and ORing in a code inside it leaves exactly that code under the mask and every other bit unchanged |
| Ina226Driver.SetFieldCommute | src/INA226_WE.cpp:45-71 | fields under disjoint masks can be set in either order |
| Ina226Driver.SetFieldOverwrite | src/INA226_WE.cpp:45-71 | setting a field twice keeps the second code; setting it to its current bits changes nothing |
| Ina226Driver.ConvTimeBits | src/INA226_WE.cpp:58-61 | the two shifted copies of the code lie inside 0x01F8 and put the code in bits 3-5 and bits 6-8 |
| Ina226Driver.WithAverage | src/INA226_WE.cpp:47-49 | the configuration word setAverage writes: the old word with bits 9-11 cleared and the averaging code ORed in; its meaning is stated by WithAverageSpec |
| Ina226Driver.WithConvTime | src/INA226_WE.cpp:55-61 | the word setConversionTime writes: bits 3-8 cleared and the code ORed in shifted by 3 and by 6; its meaning is stated by WithConvTimeSpec |
| Ina226Driver.WithMeasureMode | src/INA226_WE.cpp:67-69 | the word setMeasureMode writes: bits 0-2 cleared and the mode code ORed in; its meaning is stated by WithMeasureModeSpec |
| Ina226Driver.WithAverageSpec | src/INA226_WE.cpp:45-51 | after setAverage the averaging field decodes to the argument and all bits outside 0x0E00 are kept |
| Ina226Driver.WithConvTimeSpec | src/INA226_WE.cpp:53-63 | after setConversionTime both conversion-time fields decode to the argument and all bits outside 0x01F8 are kept |
| Ina226Driver.WithMeasureModeSpec | src/INA226_WE.cpp:65-71 | after setMeasureMode the mode field decodes to the argument and all bits outside 0x0007 are kept |
| Ina226Driver.AverageConvTimeCommute | src/INA226_WE.cpp:45-63 | setAverage and setConversionTime give the same word in either order |
| Ina226Driver.AverageModeCommute | src/INA226_WE.cpp:45-71 | setAverage and setMeasureMode give the same word in either order |
| Ina226Driver.ConvTimeModeCommute | src/INA226_WE.cpp:53-71 | setConversionTime and setMeasureMode give the same word in either order |
| Ina226Driver.AverageOverwrite | src/INA226_WE.cpp:45-51 | a second setAverage overrides the first; setting the current averaging mode changes nothing |
| Ina226Driver.ConvTimeOverwrite | src/INA226_WE.cpp:53-63 | a second setConversionTime overrides the first; when both fields agree, setting that time changes nothing |
| Ina226Driver.ModeOverwrite | src/INA226_WE.cpp:65-71 | a second setMeasureMode overrides the first; setting the current named mode changes nothing |
| Ina226Driver.InitConf | src/INA226_WE.cpp:27-30 | the configuration word after reset, setAverage(AVERAGE_1), setConversionTime(CONV_TIME_1100) and setMeasureMode(CONTINOUS); its fields are stated by InitConfFields |
| Ina226Driver.InitConfFields | src/INA226_WE.cpp:26-30 | init leaves averaging 1, 1.1 ms for both conversions and continuous mode, and keeps bits 12-15 of the word it started from |
| Ina226Driver.CalibrationValue | src/INA226_WE.cpp:76-97 | the calVal table: 2560, 1280, 1024, 512 for MA_400, MA_800, MA_1600, MA_3200; its inverse is RangeOfCalibration |
| Ina226Driver.RangeOfCalibration | src/INA226_WE.cpp:76-97 | a calibration value decodes to the range that selects it; None exactly when no range selects it |
| Ina226Driver.CalibrationDeterminesRange | src/INA226_WE.cpp:76-97 | each range's calibration value decodes back to it, and a wider range has a smaller calibration value |
| Ina226Driver.StoredAlertType | src/INA226_WE.cpp:174-191 | the stored alert type is never a current sentinel; CURRENT_OVER becomes SHUNT_OVER, CURRENT_UNDER becomes SHUNT_UNDER, the rest are kept |
| Ina226Driver.WithAlertType | src/INA226_WE.cpp:205-207 | the mask/enable word setAlertType writes: bits 11-15 cleared and the stored type's code ORed in; its meaning is stated by WithAlertTypeSpec |
| Ina226Driver.WithAlertTypeSpec | src/INA226_WE.cpp:205-208 | after setAlertType the alert field decodes to the stored type and bits 0-10 of mask/enable are kept |
| Ina226Driver.AlertTypeOverwrite | src/INA226_WE.cpp:205-208 | a second setAlertType overrides the first; setting the alert type the field already holds changes nothing |
| Ina226Driver.WithBits | src/INA226_WE.cpp:155-171 | ORing in a mask sets exactly its bits and keeps all others |
| Ina226Driver.WithBitsIdempotent | src/INA226_WE.cpp:155-171 | setting the same bits again changes nothing, and the single-bit enables leave the alert function field as it was |
| Ina226Driver.AlertTypeEnablesCommute | src/INA226_WE.cpp:155-171 | the single-bit enables and the alert-type setter write disjoint bits of mask/enable, so either order gives the same word |
| Ina226Driver.PollConversionReady | src/INA226_WE.cpp:131-134 | the poll stops at the first register value with bit 0x0008 set; it reports none only when no value has it |
| Ina226Driver.Ina226.constructor | src/INA226_WE.cpp:18-20 | the driver records the given bus address |
| Ina226Driver.Ina226.Default | src/INA226_WE.cpp:22-24 | the driver built without an address uses 0x40 |
| Ina226Driver.Ina226.WriteRegister | src/INA226_WE.cpp:224-232 | the frame register, high byte, low byte sets the register to the word and leaves the others |
| Ina226Driver.Ina226.ReadRegister | src/INA226_WE.cpp:234-247 | the word rebuilt from the two answered bytes is the register's value |
| Ina226Driver.Ina226.ResetChip | src/INA226_WE.cpp:36-38 | reset_INA226 writes 0x8000 to the configuration register |
| Ina226Driver.Ina226.SetAverage | src/INA226_WE.cpp:45-51 | only the configuration register changes, to WithAverage of its old value; it then decodes to the argument; deviceAverages is the argument |
| Ina226Driver.Ina226.SetConversionTime | src/INA226_WE.cpp:53-63 | only the configuration register changes, to WithConvTime of its old value; both time fields then decode to the argument |
| Ina226Driver.Ina226.SetMeasureMode | src/INA226_WE.cpp:65-71 | only the configuration register changes, to WithMeasureMode of its old value; it then decodes to the argument |
| Ina226Driver.Ina226.SetCurrentRange | src/INA226_WE.cpp:73-100 | calVal becomes 2560, 1280, 1024 or 512 for MA_400, MA_800, MA_1600, MA_3200 and exactly that value is written to the calibration register |
| Ina226Driver.Ina226.Init | src/INA226_WE.cpp:26-34 | init leaves the configuration register at InitConf(0x8000) and the calibration register at 512; the fields decode to averaging 1, 1.1 ms and continuous; convAlert and limitAlert are false |
| Ina226Driver.Ina226.PowerDown | src/INA226_WE.cpp:137-140 | confRegCopy holds the configuration register as it was, and the register is then in power-down mode with all other bits kept |
| Ina226Driver.Ina226.PowerUp | src/INA226_WE.cpp:142-145 | the configuration register is set back to confRegCopy |
| Ina226Driver.Ina226.PowerCycle | src/INA226_WE.cpp:137-145 | powerDown followed by powerUp leaves every register as it was and confRegCopy holds the configuration word; deviceMeasureMode stays POWER_DOWN, since powerUp restores the chip but not that cached field |
| Ina226Driver.Ina226.SetAlertPinActiveHigh | src/INA226_WE.cpp:155-159 | only mask/enable changes, gaining bit 0x0002 |
| Ina226Driver.Ina226.EnableAlertLatch | src/INA226_WE.cpp:161-165 | only mask/enable changes, gaining bit 0x0001 |
| Ina226Driver.Ina226.EnableConvReadyAlert | src/INA226_WE.cpp:167-171 | only mask/enable changes, gaining bit 0x0400 |
| Ina226Driver.Ina226.SetAlertType | src/INA226_WE.cpp:173-210 | the alert limit register gets the limit, mask/enable gets the stored type in bits 11-15, and the field decodes to deviceAlertType |
| Ina226Driver.Ina226.ReadAndClearFlags | src/INA226_WE.cpp:212-217 | overflow, convAlert and limitAlert are bits 2, 3 and 4 of mask/enable |
| Ina226Driver.Ina226.WaitUntilConversionCompleted | src/INA226_WE.cpp:147-153 | the wait ends at the first polled value with the conversion-ready bit set |
| Ina226Driver.Ina226.StartSingleMeasurement | src/INA226_WE.cpp:127-135 | the configuration register is written back unchanged, so no register changes; the wait ends at the first value with the conversion-ready bit set |

## Left out

- Floating point is left out:
  - the conversions `getShuntVoltage_mV`, `getBusVoltage_V`, `getCurrent_mA` and `getBusPower`;
  - `currentDivider_mA` and `pwrMultiplier_mW`, which `setCurrentRange` also sets;
  - `setCorrectionFactor`, which scales `calVal` by a float.
- Ina226Driver.Ina226.SetAlertType: the alert limit is a 16-bit parameter. The float arithmetic that derives it from the limit, `calVal` and the multipliers is left out.
- The `Wire` transport is replaced by byte frames on the abstract register file (beginTransmission, endTransmission, requestFrom, available).
- Ina226Driver.Ina226.ReadRegister: only the path where the chip answers two bytes is modelled. When `Wire.available()` is false, `MSByte` is read uninitialised and the result is undefined.
- Ina226Driver.PollConversionReady: the driver polls forever until the chip sets bit 0x0008. The model polls a given finite sequence of register values and reports None when none of them has the bit. Termination depends on the hardware.
- Ina226Driver.Ina226.WaitUntilConversionCompleted: the chip clears the conversion-ready flag when mask/enable is read. That is hardware behaviour; the model's registers do not change on a read.
- Ina226Driver.Ina226.ReadAndClearFlags: the same applies. The flags are copied out; the chip's clearing on read is not modelled.
- Ina226Driver.Ina226.ResetChip: what the chip does after the reset bit is written is hardware behaviour. The model's configuration register simply holds 0x8000, and Init continues from that word.
- `delayMicroseconds(40)` in `powerUp` is left out (timing only).
- The manufacturer and die ID registers (0xFE, 0xFF) are left out: the driver never reads them.
- The `i2cErrorCode` passthrough is left out.
- Fields the driver leaves uninitialised (`calVal`, `confRegCopy`, the flags, the `device...` settings) start with arbitrary values; the constructors state nothing about them.
