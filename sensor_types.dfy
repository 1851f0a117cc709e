/** The telemetry records shared by the sampling task, the logger and the
    display: sensor_reading_t and sensor_data_t. Float fields are reals. */
module SensorTypes {

  import opened Esp

  /** One INA219 channel in one cycle: converted values, raw register
      values and the smoothed values. */
  datatype SensorReading = SensorReading(
    busVoltage: real,    // volts
    shuntVoltage: real,  // millivolts
    current: real,       // milliamps
    power: real,         // milliwatts
    rawBus: int16,
    rawShunt: int16,
    rawCurrent: int16,
    rawPower: int16,
    busAvg: real,
    shuntAvg: real,
    currentAvg: real,
    powerAvg: real)

  /** Both channels and the millisecond timestamp of the cycle. */
  datatype SensorData = SensorData(sensor1: SensorReading, sensor2: SensorReading, timestamp: uint64)

  /** The all-zero record memset leaves behind. */
  const ZeroReading := SensorReading(0.0, 0.0, 0.0, 0.0, 0, 0, 0, 0, 0.0, 0.0, 0.0, 0.0)
  const ZeroData := SensorData(ZeroReading, ZeroReading, 0)
}
