/** The INA219 driver: 16-bit register transfers over I2C, device bring-up,
    the three calibration presets, power-save and the raw measurement getters.

    The bus is abstract. The device is a register file (Chip) and the outcome
    of every transfer is an input: the esp_err_t that i2c_master_cmd_begin
    would have returned. */
module Ina219 {

  import opened Esp
  import opened Ina219Regs

  /** The device side of the bus: the INA219's six 16-bit registers,
      indexed by register pointer. */
  class Chip {
    var regs: seq<bv16>

    ghost predicate Valid()
      reads this
    {
      |regs| == 6
    }

    constructor (regs0: seq<bv16>)
      requires |regs0| == 6
      ensures Valid() && regs == regs0
    {
      regs := regs0;
    }
  }

  /** ina219_handle_t. The two sensor handles are zero-initialised globals. */
  class Handle {
    var i2cPort: int
    var i2cAddr: bv8
    var calValue: uint32
    var currentDividerMA: uint32
    var powerMultiplierMW: real
    var initialized: bool
    var success: bool

    constructor ()
      ensures i2cPort == 0 && i2cAddr == 0 && calValue == 0 && currentDividerMA == 0
      ensures powerMultiplierMW == 0.0 && !initialized && !success
    {
      i2cPort, i2cAddr, calValue, currentDividerMA := 0, 0, 0, 0;
      powerMultiplierMW, initialized, success := 0.0, false, false;
    }

    /** Between two states, every field but the last-transfer flag is as it was. */
    twostate predicate OnlySuccessChanged()
      reads this
    {
      i2cPort == old(i2cPort) && i2cAddr == old(i2cAddr) && calValue == old(calValue) &&
      currentDividerMA == old(currentDividerMA) && powerMultiplierMW == old(powerMultiplierMW) &&
      initialized == old(initialized)
    }
  }

  // ------------------------------------------------------------ byte order

  /** The order in which the INA219 shifts a register out, and expects one
      in: most significant byte first. */
  function MsbFirst(v: bv16): (bv8, bv8) {
    ((v >> 8) as bv8, (v & 0xFF) as bv8)
  }

  /** How the chip assembles the two bytes it receives into a register. */
  function ChipAssemble(msb: bv8, lsb: bv8): bv16 {
    (msb as bv16 << 8) | lsb as bv16
  }

  /** The uint16_t that results from reading the first received byte into
      its lower address and the second into its upper address, on the
      little-endian ESP32. */
  function StoreLittleEndian(first: bv8, second: bv8): bv16 {
    (second as bv16 << 8) | first as bv16
  }

  function SwapBytes(v: bv16): bv16 {
    (v << 8) | (v >> 8)
  }

  /** What ina219_read_register leaves in *data after a good transfer: the
      stored bytes swapped back, i.e. the received bytes taken MSB first. */
  function ReceivedValue(first: bv8, second: bv8): (v: bv16)
    ensures MsbFirst(v) == (first, second)
  {
    SwapBytes(StoreLittleEndian(first, second))
  }

  /** A register read back through the bus arrives unchanged. */
  lemma ReadRoundTrip(v: bv16)
    ensures ReceivedValue(MsbFirst(v).0, MsbFirst(v).1) == v
  {
  }

  /** The two data bytes ina219_write_register puts on the bus, in order. */
  function SentBytes(data: bv16): (bytes: (bv8, bv8))
    ensures ChipAssemble(bytes.0, bytes.1) == data
  {
    (((data >> 8) & 0xFF) as bv8, (data & 0xFF) as bv8)
  }

  /** The register file after a write transfer with the given outcome. */
  function Written(regs: seq<bv16>, reg: bv8, data: bv16, bus: EspErr): seq<bv16>
    requires |regs| == 6 && IsRegister(reg)
  {
    if bus == Ok then regs[reg as int := data] else regs
  }

  /** The low 16 bits of a uint32_t passed where a uint16_t is expected. */
  function Low16(x: uint32): bv16 {
    (x % 0x1_0000) as bv16
  }

  // -------------------------------------------------------- value decoding

  /** The (int16_t) cast: the register's bits read as two's complement,
      i.e. its value or that value less 2^16, negative exactly when the top
      bit is set. */
  function AsInt16(v: bv16): (r: int16)
    ensures r == v as int || r + 0x1_0000 == v as int
    ensures (r < 0) == (v as int >= 0x8000)
  {
    var n := v as int;
    if n < 0x8000 then n else n - 0x1_0000
  }

  /** The bus-voltage register shifted right by 3 (written here as the
      equivalent division), dropping the CNVR and OVF flags: a count of
      4 mV steps. */
  function BusVoltageCount(v: bv16): (r: int16)
    ensures 0 <= r < 8192
    ensures r * 8 <= v as int < r * 8 + 8
  {
    v as int / 8
  }

  // -------------------------------------------------------- register access

  /** ina219_read_register. */
  method ReadRegister(h: Handle, chip: Chip, reg: bv8, bus: EspErr) returns (ret: EspErr, data: bv16)
    requires chip.Valid() && IsRegister(reg)
    modifies h`success
    ensures ret == bus && h.success == (bus == Ok)
    ensures bus == Ok ==> data == chip.regs[reg as int]
  {
    if bus != Ok {
      // the transfer failed: *data is whatever the aborted command left in it
      data := *;
      h.success := false;
      return bus, data;
    }
    var (first, second) := MsbFirst(chip.regs[reg as int]);
    var stored := StoreLittleEndian(first, second);
    data := SwapBytes(stored);
    ReadRoundTrip(chip.regs[reg as int]);
    h.success := true;
    ret := Ok;
  }

  /** ina219_write_register. */
  method WriteRegister(h: Handle, chip: Chip, reg: bv8, data: bv16, bus: EspErr) returns (ret: EspErr)
    requires chip.Valid() && IsRegister(reg)
    modifies h`success, chip
    ensures chip.Valid()
    ensures ret == bus && h.success == (bus == Ok)
    ensures chip.regs == Written(old(chip.regs), reg, data, bus)
  {
    var (msb, lsb) := SentBytes(data);
    if bus != Ok {
      h.success := false;
      return bus;
    }
    chip.regs := chip.regs[reg as int := ChipAssemble(msb, lsb)];
    h.success := true;
    ret := Ok;
  }

  // ------------------------------------------------------------- bring-up

  /** ina219_begin: reset the handle, probe the configuration register, and
      mark the handle initialised only when the device answered. The 32 V / 2 A
      calibration it calls runs before `initialized` is set, so it does
      nothing and the calibration fields stay 0. */
  method Begin(h: Handle?, chip: Chip, port: int, addr: bv8, probe: EspErr) returns (ret: EspErr)
    requires chip.Valid()
    modifies h, chip
    ensures chip.Valid() && chip.regs == old(chip.regs)
    ensures h == null ==> ret == InvalidArg
    ensures h != null ==> ret == probe && h.i2cPort == port && h.i2cAddr == addr
    ensures h != null ==> h.calValue == 0 && h.currentDividerMA == 0 && h.powerMultiplierMW == 0.0
    ensures h != null ==> h.initialized == (probe == Ok) && h.success == (probe == Ok)
  {
    if h == null {
      return InvalidArg;
    }
    h.i2cPort := port;
    h.i2cAddr := addr;
    h.calValue := 0;
    h.currentDividerMA := 0;
    h.powerMultiplierMW := 0.0;
    h.initialized := false;
    h.success := false;
    var configReg;
    ret, configReg := ReadRegister(h, chip, RegConfig, probe);
    if ret != Ok {
      return ret;
    }
    // the bus results are irrelevant: the call returns before any transfer
    SetCalibration32V2A(h, chip, Ok, Ok, Ok, Ok);
    h.initialized := true;
    ret := Ok;
  }

  /** ina219_setCalibration_32V_2A: 100 uA and 2 mW per bit; writes the
      calibration and configuration registers, then reads both back. */
  method SetCalibration32V2A(h: Handle?, chip: Chip, calBus: EspErr, configBus: EspErr, readConfigBus: EspErr, readCalBus: EspErr)
    requires chip.Valid()
    modifies h, chip
    ensures chip.Valid()
    ensures h == null || !old(h.initialized) ==> (h != null ==> unchanged(h)) && chip.regs == old(chip.regs)
    ensures h != null && old(h.initialized) ==>
      h.calValue == 4096 && h.currentDividerMA == 10 && h.powerMultiplierMW == 2.0 &&
      h.initialized && h.i2cPort == old(h.i2cPort) && h.i2cAddr == old(h.i2cAddr) &&
      h.success == (readCalBus == Ok) &&
      chip.regs == Written(Written(old(chip.regs), RegCalibration, 4096, calBus), RegConfig, 0x399F, configBus)
  {
    if h == null || !h.initialized {
      return;
    }
    h.calValue := 4096;
    h.currentDividerMA := 10;
    h.powerMultiplierMW := 2.0;
    var _ := WriteRegister(h, chip, RegCalibration, 4096, calBus);
    Config32VWord();
    var _ := WriteRegister(h, chip, RegConfig, EncodeConfig(Config32V), configBus);
    var _, readConfig := ReadRegister(h, chip, RegConfig, readConfigBus);
    var _, readCal := ReadRegister(h, chip, RegCalibration, readCalBus);
  }

  /** ina219_setCalibration_32V_1A: 40 uA and 0.8 mW per bit. */
  method SetCalibration32V1A(h: Handle?, chip: Chip, calBus: EspErr, configBus: EspErr)
    requires chip.Valid()
    modifies h, chip
    ensures chip.Valid()
    ensures h == null || !old(h.initialized) ==> (h != null ==> unchanged(h)) && chip.regs == old(chip.regs)
    ensures h != null && old(h.initialized) ==>
      h.calValue == 10240 && h.currentDividerMA == 25 && h.powerMultiplierMW == 0.8 &&
      h.initialized && h.i2cPort == old(h.i2cPort) && h.i2cAddr == old(h.i2cAddr) &&
      h.success == (configBus == Ok) &&
      chip.regs == Written(Written(old(chip.regs), RegCalibration, 10240, calBus), RegConfig, 0x399F, configBus)
  {
    if h == null || !h.initialized {
      return;
    }
    h.calValue := 10240;
    h.currentDividerMA := 25;
    h.powerMultiplierMW := 0.8;
    var _ := WriteRegister(h, chip, RegCalibration, 10240, calBus);
    Config32VWord();
    var _ := WriteRegister(h, chip, RegConfig, EncodeConfig(Config32V), configBus);
  }

  /** ina219_setCalibration_16V_400mA: 50 uA and 1 mW per bit, 16 V range, gain 1. */
  method SetCalibration16V400mA(h: Handle?, chip: Chip, calBus: EspErr, configBus: EspErr)
    requires chip.Valid()
    modifies h, chip
    ensures chip.Valid()
    ensures h == null || !old(h.initialized) ==> (h != null ==> unchanged(h)) && chip.regs == old(chip.regs)
    ensures h != null && old(h.initialized) ==>
      h.calValue == 8192 && h.currentDividerMA == 20 && h.powerMultiplierMW == 1.0 &&
      h.initialized && h.i2cPort == old(h.i2cPort) && h.i2cAddr == old(h.i2cAddr) &&
      h.success == (configBus == Ok) &&
      chip.regs == Written(Written(old(chip.regs), RegCalibration, 8192, calBus), RegConfig, EncodeConfig(Config16V), configBus)
  {
    if h == null || !h.initialized {
      return;
    }
    h.calValue := 8192;
    h.currentDividerMA := 20;
    h.powerMultiplierMW := 1.0;
    var _ := WriteRegister(h, chip, RegCalibration, 8192, calBus);
    var _ := WriteRegister(h, chip, RegConfig, EncodeConfig(Config16V), configBus);
  }

  /** The 16 V preset's configuration word. */
  lemma Config16VWord()
    ensures EncodeConfig(Config16V) == 0x019F
    ensures DecodeConfig(0x019F) == Some(Config16V)
  {
    DecodeEncodeConfig(Config16V);
  }

  /** ina219_powerSave: read the configuration, replace only the mode field
      (power-down when `on`, continuous shunt and bus otherwise), write it back. */
  method PowerSave(h: Handle?, chip: Chip, on: bool, readBus: EspErr, writeBus: EspErr)
    requires chip.Valid()
    modifies h, chip
    ensures chip.Valid()
    ensures h != null ==> h.OnlySuccessChanged()
    ensures h == null || !old(h.initialized) ==> (h != null ==> unchanged(h)) && chip.regs == old(chip.regs)
    ensures h != null && old(h.initialized) ==>
      var mode := if on then PowerDown else ShuntAndBusContinuous;
      h.initialized && h.calValue == old(h.calValue) && h.success == (writeBus == Ok) &&
      (forall r :: 0 <= r < 6 && r != RegConfig as int ==> chip.regs[r] == old(chip.regs[r])) &&
      (writeBus != Ok ==> chip.regs == old(chip.regs)) &&
      (writeBus == Ok ==> chip.regs[RegConfig] & ModeMask == ModeBits(mode)) &&
      (writeBus == Ok && readBus == Ok ==> chip.regs[RegConfig] == WithMode(old(chip.regs[RegConfig]), mode))
  {
    if h == null || !h.initialized {
      return;
    }
    var _, config := ReadRegister(h, chip, RegConfig, readBus);
    config := config & !ModeMask;
    if on {
      config := config | ModeBits(PowerDown);
    } else {
      config := config | ModeBits(ShuntAndBusContinuous);
    }
    var _ := WriteRegister(h, chip, RegConfig, config, writeBus);
  }

  /** ina219_success: whether the last transfer on this handle succeeded. */
  function Success(h: Handle?): (r: bool)
    reads h
    ensures r ==> h != null
  {
    h != null && h.success
  }

  // ------------------------------------------------------------ raw getters

  /** ina219_getBusVoltage_raw. */
  method GetBusVoltageRaw(h: Handle?, chip: Chip, bus: EspErr) returns (r: int16)
    requires chip.Valid()
    modifies h
    ensures 0 <= r < 8192
    ensures h != null ==> h.OnlySuccessChanged()
    ensures h == null || !old(h.initialized) ==> r == 0 && (h != null ==> unchanged(h))
    ensures h != null && old(h.initialized) ==>
      h.initialized && h.calValue == old(h.calValue) && h.success == (bus == Ok) &&
      r == (if bus == Ok then BusVoltageCount(chip.regs[RegBusVoltage]) else 0)
  {
    if h == null || !h.initialized {
      return 0;
    }
    var ret, value := ReadRegister(h, chip, RegBusVoltage, bus);
    if ret != Ok {
      return 0;
    }
    r := BusVoltageCount(value);
  }

  /** ina219_getShuntVoltage_raw. */
  method GetShuntVoltageRaw(h: Handle?, chip: Chip, bus: EspErr) returns (r: int16)
    requires chip.Valid()
    modifies h
    ensures h != null ==> h.OnlySuccessChanged()
    ensures h == null || !old(h.initialized) ==> r == 0 && (h != null ==> unchanged(h))
    ensures h != null && old(h.initialized) ==>
      h.initialized && h.calValue == old(h.calValue) && h.success == (bus == Ok) &&
      r == (if bus == Ok then AsInt16(chip.regs[RegShuntVoltage]) else 0)
  {
    if h == null || !h.initialized {
      return 0;
    }
    var ret, value := ReadRegister(h, chip, RegShuntVoltage, bus);
    if ret != Ok {
      return 0;
    }
    r := AsInt16(value);
  }

  /** ina219_getCurrent_raw: rewrite the calibration register (a load
      transient may have reset the chip), then read the current register. */
  method GetCurrentRaw(h: Handle?, chip: Chip, calBus: EspErr, bus: EspErr) returns (r: int16)
    requires chip.Valid()
    modifies h, chip
    ensures chip.Valid()
    ensures h != null ==> h.OnlySuccessChanged()
    ensures h == null || !old(h.initialized) ==> r == 0 && (h != null ==> unchanged(h)) && chip.regs == old(chip.regs)
    ensures h != null && old(h.initialized) ==>
      h.initialized && h.calValue == old(h.calValue) && h.success == (bus == Ok) &&
      chip.regs == Written(old(chip.regs), RegCalibration, Low16(h.calValue), calBus) &&
      r == (if bus == Ok then AsInt16(chip.regs[RegCurrent]) else 0)
  {
    if h == null || !h.initialized {
      return 0;
    }
    var _ := WriteRegister(h, chip, RegCalibration, Low16(h.calValue), calBus);
    var ret, value := ReadRegister(h, chip, RegCurrent, bus);
    if ret != Ok {
      return 0;
    }
    r := AsInt16(value);
  }

  /** ina219_getPower_raw: as for the current, through the power register. */
  method GetPowerRaw(h: Handle?, chip: Chip, calBus: EspErr, bus: EspErr) returns (r: int16)
    requires chip.Valid()
    modifies h, chip
    ensures chip.Valid()
    ensures h != null ==> h.OnlySuccessChanged()
    ensures h == null || !old(h.initialized) ==> r == 0 && (h != null ==> unchanged(h)) && chip.regs == old(chip.regs)
    ensures h != null && old(h.initialized) ==>
      h.initialized && h.calValue == old(h.calValue) && h.success == (bus == Ok) &&
      chip.regs == Written(old(chip.regs), RegCalibration, Low16(h.calValue), calBus) &&
      r == (if bus == Ok then AsInt16(chip.regs[RegPower]) else 0)
  {
    if h == null || !h.initialized {
      return 0;
    }
    var _ := WriteRegister(h, chip, RegCalibration, Low16(h.calValue), calBus);
    var ret, value := ReadRegister(h, chip, RegPower, bus);
    if ret != Ok {
      return 0;
    }
    r := AsInt16(value);
  }
}
