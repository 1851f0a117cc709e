/** The INA219 register map and configuration-register bit fields, as the
    component header declares them: the I2C address macro, the register
    pointers, the five field masks and the named settings of each field. */
module Ina219Regs {

  import opened Esp

  // ---------------------------------------------------------------- address

  /** INA219_ADDRESS: both address pins tied to ground. */
  const DefaultAddress: bv8 := 0x40

  /** INA219_CALC_ADDRESS(a0, a1): the 7-bit bus address selected by the
      two address pins; a pin counts as high when its argument is non-zero. */
  function CalcAddress(a0: int, a1: int): (r: bv8)
    ensures r == 0x40 || r == 0x41 || r == 0x44 || r == 0x45
    ensures (r & 0x01 == 0x01) == (a0 != 0)
    ensures (r & 0x04 == 0x04) == (a1 != 0)
    ensures a0 == 0 && a1 == 0 ==> r == DefaultAddress
  {
    0x40 | (if a0 != 0 then 0x01 else 0x00) | (if a1 != 0 then 0x04 else 0x00)
  }

  // -------------------------------------------------------------- registers

  const RegConfig: bv8 := 0x00
  const RegShuntVoltage: bv8 := 0x01
  const RegBusVoltage: bv8 := 0x02
  const RegPower: bv8 := 0x03
  const RegCurrent: bv8 := 0x04
  const RegCalibration: bv8 := 0x05

  /** The register pointers the driver uses: 0x00 .. 0x05. */
  predicate IsRegister(reg: bv8) {
    reg <= RegCalibration
  }

  // ------------------------------------------------- configuration bit fields

  const ConfigReset: bv16 := 0x8000
  const BusRangeMask: bv16 := 0x2000
  const GainMask: bv16 := 0x1800
  const BusAdcMask: bv16 := 0x0780
  const ShuntAdcMask: bv16 := 0x0078
  const ModeMask: bv16 := 0x0007

  /** The bits of the configuration word that the five fields cover. */
  const FieldsMask: bv16 := 0x3FFF

  datatype BusRange = Range16V | Range32V

  datatype Gain = Gain1_40mV | Gain2_80mV | Gain4_160mV | Gain8_320mV

  datatype BusAdc =
    | BusAdc9Bit | BusAdc10Bit | BusAdc11Bit | BusAdc12Bit
    | BusAdc12Bit2S | BusAdc12Bit4S | BusAdc12Bit8S | BusAdc12Bit16S
    | BusAdc12Bit32S | BusAdc12Bit64S | BusAdc12Bit128S

  datatype ShuntAdc =
    | ShuntAdc9Bit | ShuntAdc10Bit | ShuntAdc11Bit | ShuntAdc12Bit
    | ShuntAdc12Bit2S | ShuntAdc12Bit4S | ShuntAdc12Bit8S | ShuntAdc12Bit16S
    | ShuntAdc12Bit32S | ShuntAdc12Bit64S | ShuntAdc12Bit128S

  datatype Mode =
    | PowerDown | ShuntTriggered | BusTriggered | ShuntAndBusTriggered
    | AdcOff | ShuntContinuous | BusContinuous | ShuntAndBusContinuous

  /** One named setting per field: what a configuration word spells. */
  datatype ConfigFields = ConfigFields(range: BusRange, gain: Gain, busAdc: BusAdc, shuntAdc: ShuntAdc, mode: Mode)

  /** INA219_CONFIG_BVOLTAGERANGE_* */
  function BusRangeBits(v: BusRange): (r: bv16)
    ensures r & BusRangeMask == r
    ensures DecodeBusRange(r) == Some(v)
  {
    match v
    case Range16V => 0x0000
    case Range32V => 0x2000
  }

  /** INA219_CONFIG_GAIN_* */
  function GainBits(v: Gain): (r: bv16)
    ensures r & GainMask == r
    ensures DecodeGain(r) == Some(v)
  {
    match v
    case Gain1_40mV => 0x0000
    case Gain2_80mV => 0x0800
    case Gain4_160mV => 0x1000
    case Gain8_320mV => 0x1800
  }

  /** INA219_CONFIG_BADCRES_* */
  function BusAdcBits(v: BusAdc): (r: bv16)
    ensures r & BusAdcMask == r
    ensures DecodeBusAdc(r) == Some(v)
  {
    match v
    case BusAdc9Bit => 0x0000
    case BusAdc10Bit => 0x0080
    case BusAdc11Bit => 0x0100
    case BusAdc12Bit => 0x0180
    case BusAdc12Bit2S => 0x0480
    case BusAdc12Bit4S => 0x0500
    case BusAdc12Bit8S => 0x0580
    case BusAdc12Bit16S => 0x0600
    case BusAdc12Bit32S => 0x0680
    case BusAdc12Bit64S => 0x0700
    case BusAdc12Bit128S => 0x0780
  }

  /** INA219_CONFIG_SADCRES_* */
  function ShuntAdcBits(v: ShuntAdc): (r: bv16)
    ensures r & ShuntAdcMask == r
    ensures DecodeShuntAdc(r) == Some(v)
  {
    match v
    case ShuntAdc9Bit => 0x0000
    case ShuntAdc10Bit => 0x0008
    case ShuntAdc11Bit => 0x0010
    case ShuntAdc12Bit => 0x0018
    case ShuntAdc12Bit2S => 0x0048
    case ShuntAdc12Bit4S => 0x0050
    case ShuntAdc12Bit8S => 0x0058
    case ShuntAdc12Bit16S => 0x0060
    case ShuntAdc12Bit32S => 0x0068
    case ShuntAdc12Bit64S => 0x0070
    case ShuntAdc12Bit128S => 0x0078
  }

  /** INA219_CONFIG_MODE_* */
  function ModeBits(v: Mode): (r: bv16)
    ensures r & ModeMask == r
    ensures DecodeMode(r) == v
  {
    match v
    case PowerDown => 0x00
    case ShuntTriggered => 0x01
    case BusTriggered => 0x02
    case ShuntAndBusTriggered => 0x03
    case AdcOff => 0x04
    case ShuntContinuous => 0x05
    case BusContinuous => 0x06
    case ShuntAndBusContinuous => 0x07
  }

  /** The five masks are pairwise disjoint and together cover bits 0..13. */
  lemma MasksPartitionFields()
    ensures BusRangeMask & GainMask == 0 && BusRangeMask & BusAdcMask == 0
    ensures BusRangeMask & ShuntAdcMask == 0 && BusRangeMask & ModeMask == 0
    ensures GainMask & BusAdcMask == 0 && GainMask & ShuntAdcMask == 0 && GainMask & ModeMask == 0
    ensures BusAdcMask & ShuntAdcMask == 0 && BusAdcMask & ModeMask == 0
    ensures ShuntAdcMask & ModeMask == 0
    ensures BusRangeMask | GainMask | BusAdcMask | ShuntAdcMask | ModeMask == FieldsMask
    ensures ConfigReset & FieldsMask == 0
  {
  }

  // ----------------------------------------------------- decoding each field

  function DecodeBusRange(bits: bv16): Option<BusRange> {
    if bits == 0x0000 then Some(Range16V)
    else if bits == 0x2000 then Some(Range32V)
    else None
  }

  function DecodeGain(bits: bv16): Option<Gain> {
    if bits == 0x0000 then Some(Gain1_40mV)
    else if bits == 0x0800 then Some(Gain2_80mV)
    else if bits == 0x1000 then Some(Gain4_160mV)
    else if bits == 0x1800 then Some(Gain8_320mV)
    else None
  }

  function DecodeBusAdc(bits: bv16): Option<BusAdc> {
    if bits == 0x0000 then Some(BusAdc9Bit)
    else if bits == 0x0080 then Some(BusAdc10Bit)
    else if bits == 0x0100 then Some(BusAdc11Bit)
    else if bits == 0x0180 then Some(BusAdc12Bit)
    else if bits == 0x0480 then Some(BusAdc12Bit2S)
    else if bits == 0x0500 then Some(BusAdc12Bit4S)
    else if bits == 0x0580 then Some(BusAdc12Bit8S)
    else if bits == 0x0600 then Some(BusAdc12Bit16S)
    else if bits == 0x0680 then Some(BusAdc12Bit32S)
    else if bits == 0x0700 then Some(BusAdc12Bit64S)
    else if bits == 0x0780 then Some(BusAdc12Bit128S)
    else None
  }

  function DecodeShuntAdc(bits: bv16): Option<ShuntAdc> {
    if bits == 0x0000 then Some(ShuntAdc9Bit)
    else if bits == 0x0008 then Some(ShuntAdc10Bit)
    else if bits == 0x0010 then Some(ShuntAdc11Bit)
    else if bits == 0x0018 then Some(ShuntAdc12Bit)
    else if bits == 0x0048 then Some(ShuntAdc12Bit2S)
    else if bits == 0x0050 then Some(ShuntAdc12Bit4S)
    else if bits == 0x0058 then Some(ShuntAdc12Bit8S)
    else if bits == 0x0060 then Some(ShuntAdc12Bit16S)
    else if bits == 0x0068 then Some(ShuntAdc12Bit32S)
    else if bits == 0x0070 then Some(ShuntAdc12Bit64S)
    else if bits == 0x0078 then Some(ShuntAdc12Bit128S)
    else None
  }

  function DecodeMode(bits: bv16): Mode {
    if bits == 0x00 then PowerDown
    else if bits == 0x01 then ShuntTriggered
    else if bits == 0x02 then BusTriggered
    else if bits == 0x03 then ShuntAndBusTriggered
    else if bits == 0x04 then AdcOff
    else if bits == 0x05 then ShuntContinuous
    else if bits == 0x06 then BusContinuous
    else ShuntAndBusContinuous
  }

  // ------------------------------------------------- the configuration word

  /** The configuration word that OR-s one setting per field, as the
      calibration routines build it. */
  function EncodeConfig(c: ConfigFields): (w: bv16)
    ensures w & BusRangeMask == BusRangeBits(c.range)
    ensures w & GainMask == GainBits(c.gain)
    ensures w & BusAdcMask == BusAdcBits(c.busAdc)
    ensures w & ShuntAdcMask == ShuntAdcBits(c.shuntAdc)
    ensures w & ModeMask == ModeBits(c.mode)
    ensures w & !FieldsMask == 0
  {
    BusRangeBits(c.range) | GainBits(c.gain) | BusAdcBits(c.busAdc) | ShuntAdcBits(c.shuntAdc) | ModeBits(c.mode)
  }

  /** Reads the settings back out of a configuration word by masking each
      field; None when some field holds a value no named setting has. */
  function DecodeConfig(w: bv16): Option<ConfigFields> {
    var range := DecodeBusRange(w & BusRangeMask);
    var gain := DecodeGain(w & GainMask);
    var busAdc := DecodeBusAdc(w & BusAdcMask);
    var shuntAdc := DecodeShuntAdc(w & ShuntAdcMask);
    if range.Some? && gain.Some? && busAdc.Some? && shuntAdc.Some? then
      Some(ConfigFields(range.value, gain.value, busAdc.value, shuntAdc.value, DecodeMode(w & ModeMask)))
    else
      None
  }

  /** Masking every field of an OR-ed configuration word gives back each
      setting that went into it. */
  lemma DecodeEncodeConfig(c: ConfigFields)
    ensures DecodeConfig(EncodeConfig(c)) == Some(c)
  {
    EncodedFields(c);
  }

  /** A word that decodes re-encodes to itself, apart from the reset bit and
      the unused bit 14 that no field covers. */
  lemma EncodeDecodeConfig(w: bv16, c: ConfigFields)
    requires DecodeConfig(w) == Some(c)
    ensures EncodeConfig(c) == w & FieldsMask
  {
    DecodedFields(w, c);
    assert FieldsMask == BusRangeMask | GainMask | BusAdcMask | ShuntAdcMask | ModeMask;
  }

  lemma EncodedFields(c: ConfigFields)
    ensures DecodeBusRange(EncodeConfig(c) & BusRangeMask) == Some(c.range)
    ensures DecodeGain(EncodeConfig(c) & GainMask) == Some(c.gain)
    ensures DecodeBusAdc(EncodeConfig(c) & BusAdcMask) == Some(c.busAdc)
    ensures DecodeShuntAdc(EncodeConfig(c) & ShuntAdcMask) == Some(c.shuntAdc)
    ensures DecodeMode(EncodeConfig(c) & ModeMask) == c.mode
  {
  }

  lemma DecodedFields(w: bv16, c: ConfigFields)
    requires DecodeConfig(w) == Some(c)
    ensures BusRangeBits(c.range) == w & BusRangeMask
    ensures GainBits(c.gain) == w & GainMask
    ensures BusAdcBits(c.busAdc) == w & BusAdcMask
    ensures ShuntAdcBits(c.shuntAdc) == w & ShuntAdcMask
    ensures ModeBits(c.mode) == w & ModeMask
  {
  }

  /** The configuration every calibration for the 32 V ranges writes. */
  const Config32V: ConfigFields := ConfigFields(Range32V, Gain8_320mV, BusAdc12Bit, ShuntAdc12Bit, ShuntAndBusContinuous)

  /** The configuration the 16 V, 400 mA calibration writes. */
  const Config16V: ConfigFields := ConfigFields(Range16V, Gain1_40mV, BusAdc12Bit, ShuntAdc12Bit, ShuntAndBusContinuous)

  /** The 32 V word is 0x399F and decodes back to 32 V, gain 8, 12-bit bus
      and shunt conversions, continuous shunt-and-bus mode. */
  lemma Config32VWord()
    ensures EncodeConfig(Config32V) == 0x399F
    ensures DecodeConfig(0x399F) == Some(Config32V)
  {
    DecodeEncodeConfig(Config32V);
  }

  /** ina219_powerSave's read-modify-write: clear the mode bits and set the new mode. */
  function WithMode(config: bv16, m: Mode): (r: bv16)
    ensures r & ModeMask == ModeBits(m)
    ensures r & !ModeMask == config & !ModeMask
  {
    (config & !ModeMask) | ModeBits(m)
  }
}
