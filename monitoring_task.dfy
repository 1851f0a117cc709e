/** The sampling task: each cycle reads the four raw registers of both
    INA219s, converts them to volts, millivolts, milliamps and milliwatts,
    smooths every quantity with an exponential moving average, publishes
    the complete record, hands it to the logger and to the display, and
    waits the configured interval.

    Arithmetic is over reals rather than IEEE single precision. The
    outcome of every I2C transfer, the microsecond uptime, the datetime
    text and the wall clock the logger uses are inputs. */
module MonitoringTask {

  import opened Esp
  import opened SensorTypes
  import opened LogFormat
  import opened DataLogger
  import Ina219Regs
  import Ina219
  import ConfigManager

  // ------------------------------------------------------------ conversions

  /** Bus voltage: 4 mV per count, in volts. */
  function BusVolts(raw: int16): (v: real)
    ensures v * 250.0 == raw as real
  {
    raw as real * 0.004
  }

  /** Shunt voltage: 10 uV per count, in millivolts. */
  function ShuntMillivolts(raw: int16): (v: real)
    ensures v * 100.0 == raw as real
  {
    raw as real * 0.01
  }

  /** Current: a tenth of a milliamp per count, less a fixed 6 mA offset. */
  function CurrentMilliamps(raw: int16): (v: real)
    ensures (v + 6.0) * 10.0 == raw as real
  {
    raw as real / 10.0 - 6.0
  }

  /** Power: 2 mW per count. */
  function PowerMilliwatts(raw: int16): (v: real)
    ensures v / 2.0 == raw as real
  {
    raw as real * 2.0
  }

  /** The four raw register values of one sensor in one cycle. */
  datatype RawCounts = RawCounts(bus: int16, shunt: int16, current: int16, power: int16)

  /** Four values in display units: V, mV, mA, mW. */
  datatype Quantities = Quantities(bus: real, shunt: real, current: real, power: real)

  const NoQuantities := Quantities(0.0, 0.0, 0.0, 0.0)

  function Convert(raw: RawCounts): Quantities {
    Quantities(BusVolts(raw.bus), ShuntMillivolts(raw.shunt), CurrentMilliamps(raw.current), PowerMilliwatts(raw.power))
  }

  /** Every count converts, and nothing else does: the raw values can be
      recovered from the converted ones, so conversion loses nothing. */
  lemma ConvertInjective(a: RawCounts, b: RawCounts)
    ensures Convert(a) == Convert(b) ==> a == b
  {
    if Convert(a) == Convert(b) {
      assert a.bus as real == BusVolts(a.bus) * 250.0 == BusVolts(b.bus) * 250.0 == b.bus as real;
      assert a.current as real == (CurrentMilliamps(a.current) + 6.0) * 10.0 == b.current as real;
    }
  }

  /** The ranges the converted values can take. A zero current register
      reads as -6 mA; a zero current needs a register value of 60. */
  lemma ConversionRanges(raw: RawCounts)
    requires 0 <= raw.bus < 8192
    ensures 0.0 <= BusVolts(raw.bus) <= 32.764
    ensures -327.68 <= ShuntMillivolts(raw.shunt) <= 327.67
    ensures -3282.8 <= CurrentMilliamps(raw.current) <= 3270.7
    ensures -65536.0 <= PowerMilliwatts(raw.power) <= 65534.0
    ensures CurrentMilliamps(0) == -6.0 && CurrentMilliamps(60) == 0.0
  {
  }

  // -------------------------------------------------------------- smoothing

  /** The filter update, avg := 0.7 * avg + 0.3 * x. The new average lies
      between the old one and the sample, and its distance from the sample
      shrinks by the factor 0.7. */
  function Ema(avg: real, x: real): (r: real)
    ensures avg <= x ==> avg <= r <= x
    ensures x <= avg ==> x <= r <= avg
    ensures r - x == 0.7 * (avg - x)
  {
    0.7 * avg + 0.3 * x
  }

  /** One cycle of the filter for one sensor: seeded with the sample on the
      first cycle, smoothed afterwards. */
  function Filter(first: bool, avg: Quantities, q: Quantities): (r: Quantities)
    ensures first ==> r == q
    ensures !first ==> r == Quantities(Ema(avg.bus, q.bus), Ema(avg.shunt, q.shunt),
                                       Ema(avg.current, q.current), Ema(avg.power, q.power))
  {
    if first then q
    else Quantities(Ema(avg.bus, q.bus), Ema(avg.shunt, q.shunt), Ema(avg.current, q.current), Ema(avg.power, q.power))
  }

  /** The average after feeding the samples xs from the first cycle on. */
  function Smoothed(xs: seq<real>): real
    requires |xs| > 0
    decreases |xs|
  {
    if |xs| == 1 then xs[0] else Ema(Smoothed(xs[..|xs| - 1]), xs[|xs| - 1])
  }

  /** The filter never leaves the range of the samples it has seen; in
      particular a constant input is a fixed point. */
  lemma {:induction false} SmoothedWithin(xs: seq<real>, lo: real, hi: real)
    requires |xs| > 0
    requires forall i :: 0 <= i < |xs| ==> lo <= xs[i] <= hi
    ensures lo <= Smoothed(xs) <= hi
    decreases |xs|
  {
    if |xs| > 1 {
      SmoothedWithin(xs[..|xs| - 1], lo, hi);
    }
  }

  lemma ConstantIsFixed(xs: seq<real>, c: real)
    requires |xs| > 0
    requires forall i :: 0 <= i < |xs| ==> xs[i] == c
    ensures Smoothed(xs) == c
  {
    SmoothedWithin(xs, c, c);
  }

  function Pow07(n: nat): real {
    if n == 0 then 1.0 else 0.7 * Pow07(n - 1)
  }

  /** Step response: after an average seeded at a, n samples of b leave it
      at b + (a - b) * 0.7^n. */
  lemma {:induction false} StepResponse(a: real, b: real, n: nat)
    ensures Smoothed([a] + seq(n, _ => b)) == b + (a - b) * Pow07(n)
  {
    if n > 0 {
      var xs := [a] + seq(n, _ => b);
      var prev := [a] + seq(n - 1, _ => b);
      assert xs[..|xs| - 1] == prev;
      StepResponse(a, b, n - 1);
      calc {
        Smoothed(xs);
        Ema(Smoothed(prev), b);
        0.7 * (b + (a - b) * Pow07(n - 1)) + 0.3 * b;
        b + (a - b) * (0.7 * Pow07(n - 1));
      }
    }
  }

  /** The weighted sum of samples 1..k, sample i weighted 0.3 * 0.7^(n - i):
      its share of the average after sample n. */
  function WSum(xs: seq<real>, n: nat, k: nat): real
    requires k <= n < |xs|
  {
    if k == 0 then 0.0 else WSum(xs, n, k - 1) + 0.3 * Pow07(n - k) * xs[k]
  }

  /** Adding one sample ages every earlier weight by one factor of 0.7. */
  lemma {:induction false} WSumShift(xs: seq<real>, k: nat)
    requires |xs| >= 2 && k <= |xs| - 2
    ensures 0.7 * WSum(xs[..|xs| - 1], |xs| - 2, k) == WSum(xs, |xs| - 1, k)
  {
    if k > 0 {
      var n := |xs| - 1;
      WSumShift(xs, k - 1);
      assert xs[..n][k] == xs[k];
      assert Pow07(n - k) == 0.7 * Pow07(n - 1 - k);
      calc {
        0.7 * WSum(xs[..n], n - 1, k);
        0.7 * WSum(xs[..n], n - 1, k - 1) + 0.7 * (0.3 * Pow07(n - 1 - k) * xs[k]);
        WSum(xs, n, k - 1) + 0.3 * (0.7 * Pow07(n - 1 - k)) * xs[k];
      }
    }
  }

  /** Closed form of the filter over any samples: after n further samples
      the seed keeps weight 0.7^n and sample i weight 0.3 * 0.7^(n - i). */
  lemma {:induction false} SmoothedClosedForm(xs: seq<real>)
    requires |xs| > 0
    ensures Smoothed(xs) == Pow07(|xs| - 1) * xs[0] + WSum(xs, |xs| - 1, |xs| - 1)
    decreases |xs|
  {
    if |xs| > 1 {
      var n := |xs| - 1;
      var prev := xs[..n];
      SmoothedClosedForm(prev);
      WSumShift(xs, n - 1);
      assert prev[0] == xs[0];
      calc {
        Smoothed(xs);
        0.7 * Smoothed(prev) + 0.3 * xs[n];
        0.7 * (Pow07(n - 1) * xs[0]) + 0.7 * WSum(prev, n - 1, n - 1) + 0.3 * xs[n];
        Pow07(n) * xs[0] + WSum(xs, n, n - 1) + 0.3 * Pow07(0) * xs[n];
        Pow07(n) * xs[0] + WSum(xs, n, n);
      }
    }
  }

  /** Worked example: seeded at 10, then 20 and 30. */
  lemma SmoothedExample()
    ensures Smoothed([10.0, 20.0]) == 13.0
    ensures Smoothed([10.0, 20.0, 30.0]) == 18.1
  {
    assert [10.0, 20.0, 30.0][..2] == [10.0, 20.0];
    assert [10.0, 20.0][..1] == [10.0];
  }

  // --------------------------------------------------------------- one cycle

  /** The statics of monitoring_task (both sets of averages, first_read and
      debug_counter) and the published g_sensor_data. */
  datatype MonitorState = MonitorState(avg1: Quantities, avg2: Quantities, firstRead: bool,
                                       debugCounter: nat, published: SensorData)

  /** Before the first cycle: zero averages, first_read set, and the record
      memset to zero. */
  const Start := MonitorState(NoQuantities, NoQuantities, true, 0, ZeroData)

  /** sensor_reading_t of one sensor: raw counts, their conversions and the
      averages, all from the same cycle. */
  function ReadingOf(raw: RawCounts, avg: Quantities): (r: SensorReading)
    ensures Quantities(r.busVoltage, r.shuntVoltage, r.current, r.power) == Convert(raw)
    ensures RawCounts(r.rawBus, r.rawShunt, r.rawCurrent, r.rawPower) == raw
    ensures Quantities(r.busAvg, r.shuntAvg, r.currentAvg, r.powerAvg) == avg
  {
    var q := Convert(raw);
    SensorReading(q.bus, q.shunt, q.current, q.power, raw.bus, raw.shunt, raw.current, raw.power,
                  avg.bus, avg.shunt, avg.current, avg.power)
  }

  /** esp_timer_get_time() / 1000: the uptime in whole milliseconds. */
  function TimestampMs(uptimeUs: nat): (ms: uint64)
    requires uptimeUs < 0x8000_0000_0000_0000
    ensures ms * 1000 <= uptimeUs < ms * 1000 + 1000
  {
    uptimeUs / 1000
  }

  /** The debug counter: a report on every tenth cycle. */
  function DebugTick(counter: nat): (r: (nat, bool))
    ensures r.1 <==> counter + 1 >= 10
    ensures r.1 ==> r.0 == 0
    ensures !r.1 ==> r.0 == counter + 1
    ensures counter < 10 ==> r.0 < 10
  {
    if counter + 1 >= 10 then (0, true) else (counter + 1, false)
  }

  /** One loop iteration of monitoring_task, given the raw counts it read.
      The one first_read flag seeds both sensors' averages and is cleared. */
  function Cycle(s: MonitorState, raw1: RawCounts, raw2: RawCounts, uptimeUs: nat): (r: MonitorState)
    requires uptimeUs < 0x8000_0000_0000_0000
    ensures !r.firstRead
    ensures s.firstRead ==> r.avg1 == Convert(raw1) && r.avg2 == Convert(raw2)
    ensures !s.firstRead ==> r.avg1 == Filter(false, s.avg1, Convert(raw1)) && r.avg2 == Filter(false, s.avg2, Convert(raw2))
    ensures r.published == SensorData(ReadingOf(raw1, r.avg1), ReadingOf(raw2, r.avg2), TimestampMs(uptimeUs))
    ensures r.debugCounter == DebugTick(s.debugCounter).0
  {
    var avg1 := Filter(s.firstRead, s.avg1, Convert(raw1));
    var avg2 := Filter(s.firstRead, s.avg2, Convert(raw2));
    MonitorState(avg1, avg2, false, DebugTick(s.debugCounter).0,
                 SensorData(ReadingOf(raw1, avg1), ReadingOf(raw2, avg2), TimestampMs(uptimeUs)))
  }

  /** Sensor 1's averages and published reading depend only on sensor 1's
      counts, and sensor 2's only on sensor 2's. */
  lemma SensorsIndependent(s: MonitorState, raw1: RawCounts, raw2: RawCounts, other1: RawCounts, other2: RawCounts, t: nat)
    requires t < 0x8000_0000_0000_0000
    ensures Cycle(s, raw1, raw2, t).avg1 == Cycle(s, raw1, other2, t).avg1
    ensures Cycle(s, raw1, raw2, t).published.sensor1 == Cycle(s, raw1, other2, t).published.sensor1
    ensures Cycle(s, raw1, raw2, t).avg2 == Cycle(s, other1, raw2, t).avg2
    ensures Cycle(s, raw1, raw2, t).published.sensor2 == Cycle(s, other1, raw2, t).published.sensor2
  {
  }

  /** The first cycle seeds the averages and every later one smooths: a
      steady input is published unchanged, in both the instantaneous and
      the averaged fields, from the first cycle on. */
  lemma SteadyInputSteadyRecord(s: MonitorState, raw1: RawCounts, raw2: RawCounts, t: nat)
    requires t < 0x8000_0000_0000_0000
    requires !s.firstRead ==> s.avg1 == Convert(raw1) && s.avg2 == Convert(raw2)
    ensures var r := Cycle(s, raw1, raw2, t);
      r.avg1 == Convert(raw1) && r.avg2 == Convert(raw2)
  {
  }

  /** What one loop iteration is given: both sensors' counts and the uptime. */
  datatype CycleInput = CycleInput(raw1: RawCounts, raw2: RawCounts, uptimeUs: nat)

  predicate UptimesInRange(xs: seq<CycleInput>) {
    forall i :: 0 <= i < |xs| ==> xs[i].uptimeUs < 0x8000_0000_0000_0000
  }

  /** The state after running the loop over xs, one Cycle per element. */
  function RunCycles(s: MonitorState, xs: seq<CycleInput>): (r: MonitorState)
    requires UptimesInRange(xs)
    ensures xs != [] ==> !r.firstRead
    decreases |xs|
  {
    if xs == [] then s
    else
      var last := xs[|xs| - 1];
      Cycle(RunCycles(s, xs[..|xs| - 1]), last.raw1, last.raw2, last.uptimeUs)
  }

  /** One of the four smoothed quantities. */
  datatype Quantity = Bus | Shunt | Current | Power

  function Field(q: Quantities, k: Quantity): real {
    match k
    case Bus => q.bus
    case Shunt => q.shunt
    case Current => q.current
    case Power => q.power
  }

  /** The averages of sensor 1 (second == false) or sensor 2. */
  function AvgOf(s: MonitorState, second: bool): Quantities {
    if second then s.avg2 else s.avg1
  }

  function RawOf(x: CycleInput, second: bool): RawCounts {
    if second then x.raw2 else x.raw1
  }

  /** The converted samples of one quantity of one sensor, cycle by cycle. */
  function Samples(xs: seq<CycleInput>, second: bool, k: Quantity): (ys: seq<real>)
    ensures |ys| == |xs|
    ensures forall i :: 0 <= i < |xs| ==> ys[i] == Field(Convert(RawOf(xs[i], second)), k)
  {
    seq(|xs|, i requires 0 <= i < |xs| => Field(Convert(RawOf(xs[i], second)), k))
  }

  /** Every average the task keeps, after any number of cycles from the
      start, is the filter Smoothed applied to that quantity's samples: the
      loop's first_read seeding and per-field updates implement exactly the
      filter whose properties are proved above. */
  lemma {:induction false} RunIsSmoothed(xs: seq<CycleInput>, second: bool, k: Quantity)
    requires |xs| > 0 && UptimesInRange(xs)
    ensures Field(AvgOf(RunCycles(Start, xs), second), k) == Smoothed(Samples(xs, second, k))
    decreases |xs|
  {
    var n := |xs| - 1;
    var last := xs[n];
    if n == 0 {
      assert RunCycles(Start, xs) == Cycle(Start, last.raw1, last.raw2, last.uptimeUs);
    } else {
      var prefix := xs[..n];
      assert UptimesInRange(prefix) by {
        forall i | 0 <= i < |prefix| ensures prefix[i].uptimeUs < 0x8000_0000_0000_0000 {
          assert prefix[i] == xs[i];
        }
      }
      RunIsSmoothed(prefix, second, k);
      var before := RunCycles(Start, prefix);
      assert !before.firstRead;
      assert RunCycles(Start, xs) == Cycle(before, last.raw1, last.raw2, last.uptimeUs);
      assert Samples(xs, second, k)[..n] == Samples(prefix, second, k);
    }
  }

  /** What the display is given: sensor 1's and sensor 2's bus voltage,
      current and power as measured this cycle, not the averages. */
  datatype ScreenValues = ScreenValues(bus1: real, current1: real, power1: real,
                                       bus2: real, current2: real, power2: real)

  const BlankScreen := ScreenValues(0.0, 0.0, 0.0, 0.0, 0.0, 0.0)

  function ScreenOf(d: SensorData): ScreenValues {
    ScreenValues(d.sensor1.busVoltage, d.sensor1.current, d.sensor1.power,
                 d.sensor2.busVoltage, d.sensor2.current, d.sensor2.power)
  }

  // --------------------------------------------------------------- reading

  /** The outcome of each transfer one sensor's four getters make: the
      current and power getters rewrite the calibration register first. */
  datatype ChannelIo = ChannelIo(bus: EspErr, shunt: EspErr, calCurrent: EspErr, current: EspErr,
                                 calPower: EspErr, power: EspErr)

  /** The counts the four getters return: 0 for an uninitialised handle or
      a failed read, otherwise the register decoded as the getter does. */
  function ExpectedCounts(ready: bool, regs: seq<bv16>, io: ChannelIo): (raw: RawCounts)
    requires |regs| == 6
    ensures 0 <= raw.bus < 8192
    ensures !ready ==> raw == RawCounts(0, 0, 0, 0)
  {
    if !ready then RawCounts(0, 0, 0, 0)
    else RawCounts(
      if io.bus == Ok then Ina219.BusVoltageCount(regs[Ina219Regs.RegBusVoltage]) else 0,
      if io.shunt == Ok then Ina219.AsInt16(regs[Ina219Regs.RegShuntVoltage]) else 0,
      if io.current == Ok then Ina219.AsInt16(regs[Ina219Regs.RegCurrent]) else 0,
      if io.power == Ok then Ina219.AsInt16(regs[Ina219Regs.RegPower]) else 0)
  }

  /** The registers after one sensor's getters: the current and the power
      getter each rewrite the calibration register with the low 16 bits of
      `cal_value` when their transfer succeeds; nothing else is written. */
  function ChannelRegs(ready: bool, regs: seq<bv16>, calValue: uint32, io: ChannelIo): (r: seq<bv16>)
    requires |regs| == 6
    ensures |r| == 6
    ensures forall i :: 0 <= i < 6 && i != Ina219Regs.RegCalibration as int ==> r[i] == regs[i]
    ensures ready && (io.calCurrent == Ok || io.calPower == Ok) ==> r[Ina219Regs.RegCalibration] == Ina219.Low16(calValue)
    ensures !ready || (io.calCurrent != Ok && io.calPower != Ok) ==> r == regs
  {
    if !ready then regs
    else Ina219.Written(Ina219.Written(regs, Ina219Regs.RegCalibration, Ina219.Low16(calValue), io.calCurrent),
                        Ina219Regs.RegCalibration, Ina219.Low16(calValue), io.calPower)
  }

  /** The four raw getters on one sensor, in the task's order. The handle
      keeps its set-up; its last-transfer flag is that of the power read. */
  method ReadChannel(h: Ina219.Handle?, chip: Ina219.Chip, io: ChannelIo) returns (raw: RawCounts)
    requires chip.Valid()
    modifies h, chip
    ensures chip.Valid()
    ensures raw == ExpectedCounts(h != null && old(h.initialized), old(chip.regs), io)
    ensures h != null ==> h.OnlySuccessChanged()
    ensures h != null ==> h.success == (if old(h.initialized) then io.power == Ok else old(h.success))
    ensures chip.regs == ChannelRegs(h != null && old(h.initialized), old(chip.regs),
                                     if h != null then h.calValue else 0, io)
  {
    var bus := Ina219.GetBusVoltageRaw(h, chip, io.bus);
    var shunt := Ina219.GetShuntVoltageRaw(h, chip, io.shunt);
    var current := Ina219.GetCurrentRaw(h, chip, io.calCurrent, io.current);
    var power := Ina219.GetPowerRaw(h, chip, io.calPower, io.power);
    raw := RawCounts(bus, shunt, current, power);
  }

  // --------------------------------------------------------------- the task

  /** monitoring_task's statics and g_sensor_data, with the sensors, the
      logger and the configuration it works with. */
  class Monitor {
    var avg1: Quantities
    var avg2: Quantities
    var firstRead: bool
    var debugCounter: nat
    var published: SensorData
    var screen: ScreenValues
    const sensor1: Ina219.Handle
    const sensor2: Ina219.Handle
    const chip1: Ina219.Chip
    const chip2: Ina219.Chip
    const logger: Logger
    const config: ConfigManager.ConfigStore

    function State(): MonitorState
      reads this
    {
      MonitorState(avg1, avg2, firstRead, debugCounter, published)
    }

    constructor (sensor1: Ina219.Handle, sensor2: Ina219.Handle, chip1: Ina219.Chip, chip2: Ina219.Chip,
                 logger: Logger, config: ConfigManager.ConfigStore)
      ensures State() == Start && screen == BlankScreen
      ensures this.sensor1 == sensor1 && this.sensor2 == sensor2 && this.chip1 == chip1 && this.chip2 == chip2
      ensures this.logger == logger && this.config == config
    {
      this.sensor1, this.sensor2, this.chip1, this.chip2 := sensor1, sensor2, chip1, chip2;
      this.logger, this.config := logger, config;
      avg1, avg2, firstRead, debugCounter := NoQuantities, NoQuantities, true, 0;
      published, screen := ZeroData, BlankScreen;
    }

    /** The four getters on sensor 1, then on sensor 2. */
    method ReadSensors(io1: ChannelIo, io2: ChannelIo) returns (raw1: RawCounts, raw2: RawCounts)
      requires sensor1 != sensor2 && chip1 != chip2 && chip1.Valid() && chip2.Valid()
      modifies sensor1, sensor2, chip1, chip2
      ensures chip1.Valid() && chip2.Valid()
      ensures raw1 == ExpectedCounts(old(sensor1.initialized), old(chip1.regs), io1)
      ensures raw2 == ExpectedCounts(old(sensor2.initialized), old(chip2.regs), io2)
      ensures sensor1.OnlySuccessChanged() && sensor2.OnlySuccessChanged()
      ensures sensor1.success == (if old(sensor1.initialized) then io1.power == Ok else old(sensor1.success))
      ensures sensor2.success == (if old(sensor2.initialized) then io2.power == Ok else old(sensor2.success))
      ensures chip1.regs == ChannelRegs(old(sensor1.initialized), old(chip1.regs), sensor1.calValue, io1)
      ensures chip2.regs == ChannelRegs(old(sensor2.initialized), old(chip2.regs), sensor2.calValue, io2)
    {
      raw1 := ReadChannel(sensor1, chip1, io1);
      raw2 := ReadChannel(sensor2, chip2, io2);
    }

    /** Smoothing and publication: the averages, first_read, the debug
        counter and g_sensor_data after one cycle on the given counts. */
    method Publish(raw1: RawCounts, raw2: RawCounts, uptimeUs: nat) returns (report: bool)
      requires uptimeUs < 0x8000_0000_0000_0000
      modifies this
      ensures State() == Cycle(old(State()), raw1, raw2, uptimeUs)
      ensures report == DebugTick(old(debugCounter)).1
      ensures screen == old(screen)
    {
      var q1 := Convert(raw1);
      var q2 := Convert(raw2);
      if firstRead {
        avg1 := q1;
        avg2 := q2;
        firstRead := false;
      } else {
        avg1 := Filter(false, avg1, q1);
        avg2 := Filter(false, avg2, q2);
      }
      published := SensorData(ReadingOf(raw1, avg1), ReadingOf(raw2, avg2), TimestampMs(uptimeUs));
      var tick := DebugTick(debugCounter);
      debugCounter := tick.0;
      report := tick.1;
    }

    /** One loop iteration. The sensor-data lock is taken with an unbounded
        wait, so the record is always published; the logger and the display
        are called after every field is written. `report` says whether the
        debug line is printed, `waitMs` is the delay before the next cycle. */
    method Step(io1: ChannelIo, io2: ChannelIo, uptimeUs: nat, datetime: string, wall: Tm,
                lockTaken: bool, switchOpened: bool, appendOpened: bool)
      returns (report: bool, waitMs: uint32)
      requires sensor1 != sensor2 && chip1 != chip2 && chip1.Valid() && chip2.Valid()
      requires uptimeUs < 0x8000_0000_0000_0000
      modifies this, sensor1, sensor2, chip1, chip2, logger, logger.sd`present
      ensures chip1.Valid() && chip2.Valid()
      ensures sensor1.OnlySuccessChanged() && sensor2.OnlySuccessChanged()
      ensures sensor1.success == (if old(sensor1.initialized) then io1.power == Ok else old(sensor1.success))
      ensures sensor2.success == (if old(sensor2.initialized) then io2.power == Ok else old(sensor2.success))
      ensures chip1.regs == ChannelRegs(old(sensor1.initialized), old(chip1.regs), sensor1.calValue, io1)
      ensures chip2.regs == ChannelRegs(old(sensor2.initialized), old(chip2.regs), sensor2.calValue, io2)
      ensures var raw1 := ExpectedCounts(old(sensor1.initialized), old(chip1.regs), io1);
        var raw2 := ExpectedCounts(old(sensor2.initialized), old(chip2.regs), io2);
        State() == Cycle(old(State()), raw1, raw2, uptimeUs)
      ensures screen == ScreenOf(published)
      ensures logger.State() == LogSample(old(logger.State()), published, datetime, old(logger.sd.available), wall,
                                          lockTaken, switchOpened, appendOpened)
      ensures logger.sd.State() == Polled(old(logger.sd.State()), old(logger.enabled && logger.mutex) && lockTaken)
      ensures report == DebugTick(old(debugCounter)).1
      ensures waitMs == config.config.logIntervalMs
    {
      var raw1, raw2 := ReadSensors(io1, io2);
      report := Publish(raw1, raw2, uptimeUs);
      logger.LogSensorData(published, datetime, wall, lockTaken, switchOpened, appendOpened);
      screen := ScreenOf(published);
      waitMs := config.GetConfig().logIntervalMs;
    }
  }
}
