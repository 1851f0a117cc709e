# ESP32 dual-INA219 power logger — verified model

This project models, in Dafny, the core of an ESP32 firmware that samples two INA219 current/voltage sensors. The firmware smooths the readings and logs them as CSV, to an SD card when one is mounted and to SPIFFS otherwise. The model covers six parts of the firmware.

- **INA219 driver** (`Ina219Regs`, `Ina219`).
  - Covered: the register map and configuration bit fields; the byte order of 16-bit register transfers; device bring-up; the three calibration presets; power-save; the raw measurement getters.
  - How it is modelled: the I2C bus is a six-register file (`Chip`), and every transfer's result is an input.
- **SD-card driver** (`SdcardDriver`).
  - Covered: card detection; mount and unmount with all their failure paths; the availability flag; the free and total space queries; one iteration of the hot-plug detection task.
  - How it is modelled: pin levels and the results of the SPI, VFS and FATFS calls are inputs.
- **Log session manager** (`LogFormat`, `DataLogger`).
  - Covered: the session path `<root>/YYYYMMDD/HHMMSS.csv`; the 26-column header and the field layout of a data row; backend selection and failover; session creation, clearing and rotation; appending samples.
  - How it is modelled: both backends' files are one map from path to lines. Each fopen result, each mutex take, the SPIFFS mount and the wall clock are inputs.
- **Sampling task** (`MonitoringTask`, `SensorTypes`).
  - Covered: one loop iteration, which reads eight raw registers, converts them to V, mV, mA and mW, and applies the exponential moving average `avg := 0.7*avg + 0.3*x`. It then publishes `g_sensor_data`, calls the logger and the display, and returns the configured delay.
  - How it is modelled: arithmetic is over `real`.
- **Configuration** (`ConfigManager`).
  - Covered: `g_config` and its defaults; validation of the logging interval and the Wi-Fi credentials; load with per-key fallback; save, which reports only the commit; update without rollback.
  - How it is modelled: NVS is a key/value map.
- **Push button** (`ButtonTask`).
  - Covered: the debounced press/release detector on wrapping `uint32` millisecond time, and the duration classification into short (toggle logging), long (stop logging and start a new file) and reboot.

## How each part is modelled

Each source file that keeps state across calls becomes a class whose fields are the file's statics or globals (`Logger`, `Sdcard`, `DetectionTask`, `Monitor`, `ConfigStore`, `Button`, `Ina219.Handle`). Each of its operations is a method whose postcondition ties the new state to a pure transition function of the old state and the inputs, for example `(State(), ret) == SwitchStorage(old(State()), ...)`. The properties the firmware promises are proved about those transition functions:

- every created file starts with the header;
- the session name stays on its backend;
- nothing is lost when sampling;
- save followed by load gives back what was saved;
- a failed mount is not retried without re-insertion;
- the step response of the filter has the form `b + (a - b)*0.7^n`;
- the log path parses back to the clock it was made from.

A few design decisions apply throughout.

- **Time and clock.** A session name is made from one `Tm`, the broken-down local time, passed in as `now`. Where an operation reads the clock twice, as `create_new_log_file` does through the storage check and then for its own name, it takes two `Tm` inputs. The CSV datetime text is an input string. Tick time is `uint32` with explicit wrap-around (`Esp.Sub32`).
- **Unreachable re-check.** `init_data_logger` re-checks the SD card before its first open (`main/tasks/data_logger/data_logger.c:145-150`). That re-check cannot fire, because nothing runs between the two probes. `DataLogger.InitRecheckNeverFires` proves it, and the method asserts it.
- **Headerless file.** A storage switch whose header write fails still moves the session name to the new backend. The next sample's `"a"` open then creates a file with no header (`DataLogger.HeaderlessAfterFailedSwitch`).
- **Where the code and its comments or documented intent disagree, the model follows the code.**
  - The sampling task takes the sensor-data lock with `portMAX_DELAY` (`monitoring_task.c:91`), so a cycle is never skipped for a lock timeout.
  - The current conversion subtracts a 6 mA offset (`monitoring_task.c:52`).
  - `ina219_begin` calls the 32 V / 2 A calibration before it sets `initialized`, so that calibration does nothing (`ina219.c:90-92`). After `begin` the calibration fields are 0.

## Model

| member | source | states |
|---|---|---|
| Esp.Sub32 | main/tasks/button_task/button_task.c:39 | `uint32_t` subtraction wraps modulo 2^32: adding the subtrahend back gives the minuend, and it is the plain difference when no wrap occurs |
| Ina219Regs.CalcAddress | components/ina219/include/ina219.h:19-23 | INA219_CALC_ADDRESS is always 0x40, 0x41, 0x44 or 0x45; bit 0 is set iff A0 is non-zero and bit 2 iff A1 is; with both pins low it is INA219_ADDRESS (0x40) |
| Ina219Regs.BusRangeBits | components/ina219/include/ina219.h:37-39 | each bus-range setting lies inside its mask and decodes back to itself |
| Ina219Regs.GainBits | components/ina219/include/ina219.h:42-46 | each gain setting lies inside its mask and decodes back to itself |
| Ina219Regs.BusAdcBits | components/ina219/include/ina219.h:49-60 | each bus ADC setting lies inside its mask and decodes back to itself |
| Ina219Regs.ShuntAdcBits | components/ina219/include/ina219.h:63-74 | each shunt ADC setting lies inside its mask and decodes back to itself |
| Ina219Regs.ModeBits | components/ina219/include/ina219.h:77-85 | each mode lies inside the mode mask and decodes back to itself |
| Ina219Regs.MasksPartitionFields | components/ina219/include/ina219.h:34-77 | the five field masks are pairwise disjoint, together cover bits 0..13, and exclude the reset bit |
| Ina219Regs.EncodeConfig | components/ina219/ina219.c:119-123 | OR-ing one setting per field puts each field's bits in its mask and sets no bit outside bits 0..13 |
| Ina219Regs.EncodedFields | components/ina219/include/ina219.h:37-85 | masking each field of an encoded word yields that field's setting |
| Ina219Regs.DecodedFields | components/ina219/include/ina219.h:37-85 | a word that decodes has, in each field, exactly the bits of the decoded setting |
| Ina219Regs.DecodeEncodeConfig | components/ina219/include/ina219.h:37-85 | encode then decode is the identity on settings |
| Ina219Regs.EncodeDecodeConfig | components/ina219/include/ina219.h:37-85 | decode then encode gives back the word apart from bits 14 and 15 |
| Ina219Regs.Config32VWord | components/ina219/ina219.c:119-123 | the 32 V presets write 0x399F, which decodes to 32 V, gain 8, 12-bit bus and shunt, continuous shunt and bus |
| Ina219Regs.WithMode | components/ina219/ina219.c:209-217 | the power-save update sets the mode field to the new mode and leaves every other bit unchanged |
| Ina219.ReceivedValue | components/ina219/ina219.c:23-36 | after storing the two received bytes little-endian and swapping, the value's MSB-first bytes are the received bytes in order |
| Ina219.ReadRoundTrip | components/ina219/ina219.c:23-36 | a register value shifted out MSB first is read back unchanged |
| Ina219.SentBytes | components/ina219/ina219.c:49-50 | the MSB is sent first, then the LSB, and the chip reassembles exactly the word written |
| Ina219.AsInt16 | components/ina219/ina219.c:273 | the `(int16_t)` cast yields the register value or that value less 2^16, negative exactly when bit 15 is set |
| Ina219.BusVoltageCount | components/ina219/ina219.c:253 | the bus register shifted right by 3 is the count of whole 8s in it, always in 0..8191 |
| Ina219.ReadRegister | components/ina219/ina219.c:15-39 | returns the bus result; `success` is true iff the transfer succeeded; on success the data is the register's value |
| Ina219.WriteRegister | components/ina219/ina219.c:42-63 | returns the bus result; `success` mirrors it; only a successful transfer changes the register, to exactly the word sent |
| Ina219.Begin | components/ina219/ina219.c:65-96 | NULL gives ESP_ERR_INVALID_ARG; otherwise port and address are stored and calibration fields reset to 0; `initialized` and `success` are true iff the probe read succeeded, the result is the probe's, and no register is written |
| Ina219.SetCalibration32V2A | components/ina219/ina219.c:98-137 | on an initialised handle sets (4096, 10, 2.0), writes calibration 4096 then config 0x399F (each only if its transfer succeeds), and `success` reflects the last read-back; otherwise changes nothing |
| Ina219.SetCalibration32V1A | components/ina219/ina219.c:139-167 | on an initialised handle sets (10240, 25, 0.8), keeps port and address, writes calibration 10240 and config 0x399F, and `success` is the config write's; otherwise changes nothing |
| Ina219.SetCalibration16V400mA | components/ina219/ina219.c:169-197 | on an initialised handle sets (8192, 20, 1.0), keeps port and address, writes calibration 8192 and the 16 V word, and `success` is the config write's; otherwise changes nothing |
| Ina219.Config16VWord | components/ina219/ina219.c:189-193 | the 16 V / 400 mA preset writes 0x019F, which decodes back to its settings |
| Ina219.PowerSave | components/ina219/ina219.c:199-220 | on an initialised handle only the config register can change; a successful write sets its mode field to power-down (on) or continuous (off), and with a good read every other bit is kept; the handle's port, address, calibration value, divider, multiplier and `initialized` stay as they were, only `success` changes; otherwise nothing changes |
| Ina219.Success | components/ina219/ina219.c:222-228 | a NULL handle never reports success |
| Ina219.GetBusVoltageRaw | components/ina219/ina219.c:230-256 | 0 for a NULL or uninitialised handle or a failed read, otherwise the register shifted right by 3; always in 0..8191; the handle's port, address, calibration value, divider, multiplier and `initialized` stay as they were, only `success` changes |
| Ina219.GetShuntVoltageRaw | components/ina219/ina219.c:258-274 | 0 for a NULL or uninitialised handle or a failed read, otherwise the register read as signed 16-bit; the handle's port, address, calibration value, divider, multiplier and `initialized` stay as they were, only `success` changes |
| Ina219.GetCurrentRaw | components/ina219/ina219.c:276-296 | rewrites the calibration register with the low 16 bits of `cal_value` first; returns 0 on a guard or read failure, otherwise the current register as signed 16-bit; the handle's port, address, calibration value, divider, multiplier and `initialized` stay as they were, only `success` changes |
| Ina219.GetPowerRaw | components/ina219/ina219.c:298-318 | as for the current, through the power register; the handle's port, address, calibration value, divider, multiplier and `initialized` stay as they were, only `success` changes |
| SdcardDriver.InitStep | main/utils/sdcard_driver/sdcard_driver.c:36-129 | available iff the result is ESP_OK; ESP_OK iff the card is detected and the bus init, mount and both probe files succeed; no card gives ESP_ERR_NOT_FOUND; bus and mount failures return their own code; the presence flag mirrors the pin |
| SdcardDriver.DeinitStep | main/utils/sdcard_driver/sdcard_driver.c:132-154 | no-op returning ESP_OK when unavailable; otherwise ESP_OK iff unmount and bus free both succeed, the first failing call's code otherwise, and the card stays available exactly when it fails |
| SdcardDriver.MountPointOf | main/utils/sdcard_driver/sdcard_driver.c:163-165 | "/sdcard" iff the card is available, NULL otherwise |
| SdcardDriver.Mul32 | main/utils/sdcard_driver/sdcard_driver.c:184-188 | DWORD multiplication is exact whenever the product fits in 32 bits |
| SdcardDriver.FreeSpaceAsWritten | main/utils/sdcard_driver/sdcard_driver.c:168-189 | 0 when the card is unavailable, unmounted or f_getfree fails; otherwise the free byte count whenever it fits in 32 bits |
| SdcardDriver.FreeSpaceWrapsAt4GiB | main/utils/sdcard_driver/sdcard_driver.c:185-188 | with exactly 4 GiB free the 32-bit computation reports 0 bytes while the free space is 2^32 bytes |
| SdcardDriver.FreeSpace | main/utils/sdcard_driver/sdcard_driver.c:168-189 | 0 on the guard and error paths, otherwise free clusters × sectors per cluster × 512, without wrapping |
| SdcardDriver.TotalSpaceAsWritten | main/utils/sdcard_driver/sdcard_driver.c:192-212 | 0 when the card is unavailable, unmounted or f_getfree fails; otherwise (n_fatent − 2) × sectors per cluster × 512 whenever that fits in 32 bits |
| SdcardDriver.TotalSpaceWrapsAt32GiB | main/utils/sdcard_driver/sdcard_driver.c:208-211 | a 32 GiB data area is reported as 0 bytes |
| SdcardDriver.TotalSpace | main/utils/sdcard_driver/sdcard_driver.c:192-212 | 0 on the guard and error paths, otherwise (n_fatent − 2) × sectors per cluster × 512, without wrapping |
| SdcardDriver.MulMod32 | main/utils/sdcard_driver/sdcard_driver.c:184-188 | reducing modulo 2^32 before a multiplication gives the same residue as reducing after it |
| SdcardDriver.AsWrittenIsModulo | main/utils/sdcard_driver/sdcard_driver.c:168-212 | the values the code returns are the intended byte counts modulo 2^32 (for the total, whenever n_fatent ≥ 2) |
| SdcardDriver.DetectionStep | main/utils/sdcard_driver/sdcard_driver.c:257-292 | the remembered state becomes the sample; without an edge only the presence flag changes; a rising edge inits only an unavailable card, a falling edge deinits only an available one, and any other edge changes nothing else |
| SdcardDriver.NoRetryWithoutEdge | main/utils/sdcard_driver/sdcard_driver.c:262-291 | after a failed mount, no number of iterations with the card still inserted makes it available or touches the mount |
| SdcardDriver.ReinsertRetries | main/utils/sdcard_driver/sdcard_driver.c:262-291 | removing and re-inserting the card retries the mount: it is then available iff the new init succeeded |
| SdcardDriver.Sdcard.constructor | main/utils/sdcard_driver/sdcard_driver.c:19-20 | the driver starts unavailable, unmounted, not present |
| SdcardDriver.Sdcard.CheckCardDetect | main/utils/sdcard_driver/sdcard_driver.c:25-33 | detected iff the pin reads 0, mirrored into the presence flag |
| SdcardDriver.Sdcard.InitSdcard | main/utils/sdcard_driver/sdcard_driver.c:36-129 | new state and result are exactly InitStep's |
| SdcardDriver.Sdcard.DeinitSdcard | main/utils/sdcard_driver/sdcard_driver.c:132-154 | new state and result are exactly DeinitStep's |
| SdcardDriver.Sdcard.IsSdcardAvailable | main/utils/sdcard_driver/sdcard_driver.c:157-160 | returns the availability flag and copies it into the presence flag |
| SdcardDriver.Sdcard.GetSdcardFreeSpace | main/utils/sdcard_driver/sdcard_driver.c:168-189 | returns FreeSpace of the driver state |
| SdcardDriver.Sdcard.GetSdcardTotalSpace | main/utils/sdcard_driver/sdcard_driver.c:192-212 | returns TotalSpace of the driver state |
| SdcardDriver.DetectionTask.constructor | main/utils/sdcard_driver/sdcard_driver.c:244 | `last_card_state` starts false |
| SdcardDriver.DetectionTask.Step | main/utils/sdcard_driver/sdcard_driver.c:257-292 | driver state and `last_card_state` after one iteration are exactly DetectionStep's |
| LogFormat.BasePath | main/tasks/data_logger/data_logger.c:63 | the root is a 7-character absolute path, "/sdcard" or "/spiffs" |
| LogFormat.DecRoundTrip | main/tasks/data_logger/data_logger.c:68-70 | `%0wd` of a value below 10^w is exactly w digits and reads back as the value |
| LogFormat.Truncate | main/tasks/data_logger/data_logger.c:93-101 | snprintf into a buffer of n bytes keeps a prefix of at most n−1 characters, and the whole text when it is shorter |
| LogFormat.TmValues | main/tasks/data_logger/data_logger.c:67-96 | for a valid time each of the six numeric fields prints at its width and reads back as the field (year + 1900, month + 1) |
| LogFormat.TmLengths | main/tasks/data_logger/data_logger.c:67-96 | for a valid time the six numeric fields print at widths 4, 2, 2, 2, 2, 2 |
| LogFormat.LayoutLengths | main/tasks/data_logger/data_logger.c:67-96 | with a four-digit year the directory is 16 characters and the session path 27 |
| LogFormat.LogFilenameLayout | main/tasks/data_logger/data_logger.c:57-104 | with a four-digit year neither truncation fires: the name is exactly `<root>/YYYYMMDD/HHMMSS.csv`, 27 characters, well within the 64-byte `g_log_filename` |
| LogFormat.ParseLogFilenameInverse | main/tasks/data_logger/data_logger.c:63-101 | the name starts with its backend root, has '/' at 7 and 16 and ends in ".csv", and parses back to the backend and the time it was made from |
| LogFormat.LogFilenameInjective | main/tasks/data_logger/data_logger.c:57-104 | two sessions share a file name only if they were opened on the same backend in the same second |
| LogFormat.ChannelColumns | main/tasks/data_logger/data_logger.c:171 | a channel contributes 12 columns, its prefix followed by each quantity name in order |
| LogFormat.HeaderColumns | main/tasks/data_logger/data_logger.c:171 | the header has 26 columns |
| LogFormat.QuantityMatches | main/tasks/data_logger/data_logger.c:195-221 | the i-th quantity name selects the i-th field the row prints for a channel |
| LogFormat.ChannelPositions | main/tasks/data_logger/data_logger.c:171-221 | header columns 2+i and 14+i name quantity i of sensor 1 and sensor 2, and the row prints that channel field there |
| LogFormat.RowMatchesHeader | main/tasks/data_logger/data_logger.c:171-221 | a row has one field per header column (26) and field i holds the value column i is named after |
| DataLogger.CreateWithHeader | main/tasks/data_logger/data_logger.c:346-349 | a successful "w" open leaves the file holding exactly the header line; a failed one changes nothing; no other file changes |
| DataLogger.Append | main/tasks/data_logger/data_logger.c:189-222 | a successful "a" open adds the line at the end (creating the file if needed); a failed one changes nothing; no other file changes |
| DataLogger.Desired | main/tasks/data_logger/data_logger.c:332 | the target backend is the SD card iff it is available |
| DataLogger.SwitchStorage | main/tasks/data_logger/data_logger.c:331-361 | the backend becomes the desired one; no change returns ESP_OK with nothing altered; a switch first points the name at a new session on the new backend, then returns ESP_OK iff the header file was created |
| DataLogger.LogSample | main/tasks/data_logger/data_logger.c:180-226 | with logging off, no mutex or the lock not taken nothing changes; otherwise the storage check runs first and the row is appended to the file current after it, if the open succeeds |
| DataLogger.ClearLog | main/tasks/data_logger/data_logger.c:262-283 | ESP_OK iff the mutex exists, the lock is taken and the open succeeds, in which case the current file is exactly the header; otherwise nothing changes; the name and backend never change |
| DataLogger.NewLogFile | main/tasks/data_logger/data_logger.c:286-311 | without mutex or lock ESP_FAIL and no change; otherwise the storage check with its own clock read, then a fresh name from a second clock read on the current backend, whose file is created with the header; ESP_OK iff that open succeeded |
| DataLogger.InitOrder | main/tasks/data_logger/data_logger.c:107-177 | SPIFFS failure returns its error first; SD is chosen only when its init succeeds; a missing mutex fails; the SD open failing retries once on SPIFFS; ESP_OK iff an open succeeded, and then the session file is exactly the header and no other file changed |
| DataLogger.InitRecheckNeverFires | main/tasks/data_logger/data_logger.c:144-150 | after a successful SD init the second availability probe still finds the card, so the fallback branch never runs |
| DataLogger.StorageTypeString | main/tasks/data_logger/data_logger.c:319-328 | "SD Card" iff SD, "SPIFFS" iff SPIFFS |
| DataLogger.LogFilenameRoot | main/tasks/data_logger/data_logger.c:63-101 | every session name, truncated or not, begins with its backend's root |
| DataLogger.TruncateKeepsPrefix | main/tasks/data_logger/data_logger.c:93-101 | truncating to a buffer longer than k keeps the first k characters |
| DataLogger.BackendsDisjoint | main/tasks/data_logger/data_logger.c:63 | paths under the two roots never coincide |
| DataLogger.OperationsKeepOnBackend | main/tasks/data_logger/data_logger.c:286-361 | switching, sampling, clearing and rotating keep the session name under the current backend's root |
| DataLogger.RowLandsOnCurrentBackend | main/tasks/data_logger/data_logger.c:185-222 | after a logged sample its row is the last line of the session file, which is on the backend the card's availability selects |
| DataLogger.FailedAppendWritesNothing | main/tasks/data_logger/data_logger.c:189-223 | a failed append open leaves only the storage check's effect |
| DataLogger.CreatePreservesHeaded | main/tasks/data_logger/data_logger.c:346-349 | creating a session file keeps every file starting with the header |
| DataLogger.AppendPreservesHeaded | main/tasks/data_logger/data_logger.c:189-222 | appending to an existing headed file keeps every file starting with the header |
| DataLogger.OperationsKeepHeaders | main/tasks/data_logger/data_logger.c:262-361 | when every "w" open succeeds, switching, sampling, clearing and rotating keep every file starting with the header and the session file existing |
| DataLogger.HeaderlessAfterFailedSwitch | main/tasks/data_logger/data_logger.c:185-222 | a sample whose storage switch fails to write the header but whose append succeeds leaves the new session file holding only the data row, with no header |
| DataLogger.LogSampleKeeps | main/tasks/data_logger/data_logger.c:180-226 | sampling never loses data: every file other than the one a switch creates keeps its old lines as a prefix |
| DataLogger.SwitchKeepsOldSession | main/tasks/data_logger/data_logger.c:331-361 | a backend switch never truncates the session it leaves |
| DataLogger.NewLogFileSameSecond | main/tasks/data_logger/data_logger.c:286-311 | rotating within the same second on the same backend reuses the name and so truncates the current session to the header |
| DataLogger.SwitchThenRotateOrphan | main/tasks/data_logger/data_logger.c:286-311 | a rotation that switches backend while the clock moves to the next second leaves the switch's file holding only the header and moves the session to a different name, created only if its own open succeeds |
| DataLogger.Logger.constructor | main/tasks/data_logger/data_logger.c:20-21 | the logger starts on SPIFFS with an empty file name and no mutex; the logging switch and the files are the given ones |
| DataLogger.Logger.GenerateLogFilename | main/tasks/data_logger/data_logger.c:57-104 | the name becomes LogFilename of the current backend and the clock |
| DataLogger.Logger.WriteHeader | main/tasks/data_logger/data_logger.c:346-349 | the files become CreateWithHeader of the current name |
| DataLogger.Logger.InitDataLogger | main/tasks/data_logger/data_logger.c:107-177 | logger state, driver state and result are exactly InitLogger's |
| DataLogger.Logger.CheckAndSwitchStorage | main/tasks/data_logger/data_logger.c:331-361 | state and result are exactly SwitchStorage's; the driver's presence flag is refreshed |
| DataLogger.Logger.LogSensorData | main/tasks/data_logger/data_logger.c:180-226 | state is exactly LogSample's; the driver is polled only when the check ran |
| DataLogger.Logger.SetLoggingEnabled | main/tasks/data_logger/data_logger.c:229-232 | the logging switch becomes the argument and nothing else changes |
| DataLogger.Logger.IsLoggingEnabled | main/tasks/data_logger/data_logger.c:235-237 | reports exactly the logging flag of the logger state, the flag that log_sensor_data checks and a short press toggles; after `set_logging_enabled(b)` it reports `b` |
| DataLogger.Logger.GetLogFileSize | main/tasks/data_logger/data_logger.c:245-259 | the stat size when the mutex exists, the lock is taken and stat succeeds, 0 otherwise |
| DataLogger.Logger.ClearLogFile | main/tasks/data_logger/data_logger.c:262-283 | state and result are exactly ClearLog's |
| DataLogger.Logger.CreateNewLogFile | main/tasks/data_logger/data_logger.c:286-311 | state and result are exactly NewLogFile's for the two clock reads; the driver is polled only when the check ran |
| MonitoringTask.BusVolts | main/tasks/monitoring_task/monitoring_task.c:50 | 4 mV per count: volts × 250 is the raw count |
| MonitoringTask.ShuntMillivolts | main/tasks/monitoring_task/monitoring_task.c:51 | 10 µV per count: millivolts × 100 is the raw count |
| MonitoringTask.CurrentMilliamps | main/tasks/monitoring_task/monitoring_task.c:52 | (milliamps + 6) × 10 is the raw count |
| MonitoringTask.PowerMilliwatts | main/tasks/monitoring_task/monitoring_task.c:53 | 2 mW per count: milliwatts / 2 is the raw count |
| MonitoringTask.ConvertInjective | main/tasks/monitoring_task/monitoring_task.c:50-59 | conversion loses nothing: equal converted values come from equal raw counts |
| MonitoringTask.ConversionRanges | main/tasks/monitoring_task/monitoring_task.c:50-59 | the ranges of the four converted values over all register values; a zero current register reads −6 mA |
| MonitoringTask.Ema | main/tasks/monitoring_task/monitoring_task.c:78-87 | the new average lies between the old average and the sample, and its distance to the sample shrinks by 0.7 |
| MonitoringTask.Filter | main/tasks/monitoring_task/monitoring_task.c:62-88 | the first cycle seeds each average with the sample; later cycles apply the update to each of the four quantities independently |
| MonitoringTask.SmoothedWithin | main/tasks/monitoring_task/monitoring_task.c:62-88 | over any run, the average stays within the range of the samples seen |
| MonitoringTask.ConstantIsFixed | main/tasks/monitoring_task/monitoring_task.c:62-88 | a constant input is a fixed point of the filter |
| MonitoringTask.StepResponse | main/tasks/monitoring_task/monitoring_task.c:62-88 | seeded at a, after n samples of b the average is b + (a − b)·0.7^n |
| MonitoringTask.WSumShift | main/tasks/monitoring_task/monitoring_task.c:78-87 | one more filter step ages the weight of every earlier sample by 0.7 |
| MonitoringTask.SmoothedClosedForm | main/tasks/monitoring_task/monitoring_task.c:62-88 | over any samples x0..xn the average is 0.7^n·x0 + Σ 0.3·0.7^(n−i)·xi for i = 1..n |
| MonitoringTask.SmoothedExample | main/tasks/monitoring_task/monitoring_task.c:62-88 | seeded at 10, the samples 20 and then 30 give 13 and then 18.1 |
| MonitoringTask.ReadingOf | main/tasks/monitoring_task/monitoring_task.c:93-118 | a published reading holds the raw counts, their conversions and the averages of the same cycle |
| MonitoringTask.TimestampMs | main/tasks/monitoring_task/monitoring_task.c:121 | the timestamp is the uptime in whole milliseconds, rounded down |
| MonitoringTask.DebugTick | main/tasks/monitoring_task/monitoring_task.c:133-139 | the debug line is printed on every tenth cycle and the counter then resets; it stays below 10 |
| MonitoringTask.Cycle | main/tasks/monitoring_task/monitoring_task.c:49-139 | `first_read` is cleared; the first cycle seeds both sensors' averages and later ones filter them; the record holds both readings and the timestamp; the debug counter ticks |
| MonitoringTask.SensorsIndependent | main/tasks/monitoring_task/monitoring_task.c:31-118 | sensor 1's averages and reading depend only on sensor 1's counts, and sensor 2's only on sensor 2's |
| MonitoringTask.SteadyInputSteadyRecord | main/tasks/monitoring_task/monitoring_task.c:62-88 | a steady input keeps the averages equal to the converted values from the first cycle on |
| MonitoringTask.RunCycles | main/tasks/monitoring_task/monitoring_task.c:28-147 | the loop run over a sequence of inputs, one Cycle per element; after at least one cycle first_read is clear |
| MonitoringTask.Samples | main/tasks/monitoring_task/monitoring_task.c:31-59 | the converted series of one quantity of one sensor has one value per cycle, the conversion of that cycle's count |
| MonitoringTask.RunIsSmoothed | main/tasks/monitoring_task/monitoring_task.c:24-88 | after any non-empty run from the initial statics, each of the eight averages (both sensors; bus, shunt, current, power) equals `Smoothed` of that quantity's converted samples, so SmoothedWithin, StepResponse and SmoothedClosedForm hold of the task's own averages |
| MonitoringTask.ExpectedCounts | main/tasks/monitoring_task/monitoring_task.c:31-47 | the bus count is always in 0..8191, and an uninitialised sensor reads all zeros |
| MonitoringTask.ChannelRegs | main/tasks/monitoring_task/monitoring_task.c:31-47 | after one sensor's getters only the calibration register may differ; it holds the low 16 bits of `cal_value` when the sensor is initialised and either rewrite succeeded, and nothing changes otherwise |
| MonitoringTask.ReadChannel | main/tasks/monitoring_task/monitoring_task.c:31-37 | the four getters return exactly the expected counts; the handle keeps its set-up, its `success` is the power read's (unchanged when uninitialised); the chip's registers are ChannelRegs of the old ones |
| MonitoringTask.Monitor.constructor | main/tasks/monitoring_task/monitoring_task.c:21-26 | zero averages, `first_read` set, the record all zeros |
| MonitoringTask.Monitor.ReadSensors | main/tasks/monitoring_task/monitoring_task.c:31-47 | both sensors read in order, each as ReadChannel states |
| MonitoringTask.Monitor.Publish | main/tasks/monitoring_task/monitoring_task.c:49-139 | the averages, `first_read`, the debug counter and `g_sensor_data` become Cycle's; the report is DebugTick's |
| MonitoringTask.Monitor.Step | main/tasks/monitoring_task/monitoring_task.c:28-146 | one iteration: state is Cycle of the counts read; both handles keep their set-up and report the power read's outcome; each chip's registers are ChannelRegs of the old ones; the logger gets the published record; the display gets this cycle's instantaneous values; the debug report is DebugTick's; the delay is the configured interval |
| ConfigManager.GetBlob32 | main/utils/config_manager/config_manager.c:49-54 | the interval reads only from a 4-byte blob under its key |
| ConfigManager.GetStr | main/utils/config_manager/config_manager.c:57-70 | a string reads only when stored under its key and shorter than the buffer |
| ConfigManager.SetIf | main/utils/config_manager/config_manager.c:90-105 | a successful set stores the entry, a failed one changes nothing; other keys are untouched |
| ConfigManager.Loaded | main/utils/config_manager/config_manager.c:37-78 | a failed open resets only the credentials to their defaults; otherwise each key that is missing, of the wrong type or too long for its buffer falls back to its own default, and each readable one is taken; the strings always fit |
| ConfigManager.Saved | main/utils/config_manager/config_manager.c:81-120 | a failed open returns its error with NVS untouched; otherwise each successful set stores its key, each failed set leaves its key as it was, the result is the commit's, and no other key changes |
| ConfigManager.WithInterval | main/utils/config_manager/config_manager.c:128-137 | ESP_OK iff 100 ≤ interval ≤ 60000, and then the interval is stored; otherwise ESP_ERR_INVALID_ARG and no change; credentials never change |
| ConfigManager.WithCredentials | main/utils/config_manager/config_manager.c:140-161 | ESP_OK iff both are given and fit (SSID < 32, password < 64), and then both are copied; otherwise ESP_ERR_INVALID_ARG and no change; the interval never changes |
| ConfigManager.Updated | main/utils/config_manager/config_manager.c:164-201 | a NULL or unacceptable record is refused with no change; an accepted one replaces all three fields and is saved; ESP_OK only for an accepted record |
| ConfigManager.SaveThenLoad | main/utils/config_manager/config_manager.c:37-120 | a fully successful save followed by a load gives back the saved configuration |
| ConfigManager.LoadPerKey | main/utils/config_manager/config_manager.c:48-70 | each loaded field depends only on its own key |
| ConfigManager.SaveReportsCommitOnly | main/utils/config_manager/config_manager.c:89-119 | failures of the individual sets do not change what save reports |
| ConfigManager.UpdateWithoutRollback | main/utils/config_manager/config_manager.c:187-197 | an accepted update whose save fails still changes the configuration and reports the failure |
| ConfigManager.UpdateThenReboot | main/utils/config_manager/config_manager.c:164-201 | an update that saves cleanly is what the next boot loads |
| ConfigManager.OperationsKeepFits | main/utils/config_manager/config_manager.h:9-13 | the initial record and every operation keep both strings within their buffers |
| ConfigManager.ConfigStore.constructor | main/utils/config_manager/config_manager.c:14-18 | g_config starts at 1000 ms with empty credentials; NVS is the given store |
| ConfigManager.ConfigStore.LoadConfig | main/utils/config_manager/config_manager.c:37-78 | the configuration becomes Loaded's and the result is ESP_OK |
| ConfigManager.ConfigStore.SaveConfig | main/utils/config_manager/config_manager.c:81-120 | NVS and the result are exactly Saved's |
| ConfigManager.ConfigStore.SetLogInterval | main/utils/config_manager/config_manager.c:128-137 | configuration and result are exactly WithInterval's |
| ConfigManager.ConfigStore.SetWifiCredentials | main/utils/config_manager/config_manager.c:140-161 | configuration and result are exactly WithCredentials' |
| ConfigManager.ConfigStore.UpdateConfig | main/utils/config_manager/config_manager.c:164-201 | configuration, NVS and result are exactly Updated's |
| ConfigManager.ConfigStore.GetConfig | main/utils/config_manager/config_manager.c:123-125 | the record handed out is the current configuration, whose SSID and password fit their NUL-terminated buffers whenever the store is valid |
| ButtonTask.Classify | main/tasks/button_task/button_task.c:50-67 | under 200 ms nothing, 200 ms up to 3 s a short press, from 3 s a long press, each iff |
| ButtonTask.ButtonStep | main/tasks/button_task/button_task.c:33-76 | a level change is taken only after more than 50 ms (wrapping) since the last accepted one; a press records its time and does nothing else; a release is classified by the time since the press and restarts from 15 s |
| ButtonTask.PressEffect | main/tasks/button_task/button_task.c:52-67 | a short press toggles the logging switch exactly once; a long press turns logging off and then creates a new log file with its two clock reads; anything else changes nothing |
| ButtonTask.RestartIsLong | main/tasks/button_task/button_task.c:57-72 | a restart only follows a press that was also handled as long |
| ButtonTask.NeverDebounceActive | main/tasks/button_task/button_task.c:13-49 | `button_debounce_active` is never set, over any run of samples |
| ButtonTask.ReleaseClassified | main/tasks/button_task/button_task.c:47-73 | an accepted release is classified by the time since the accepted press |
| ButtonTask.PressThenRelease | main/tasks/button_task/button_task.c:38-73 | an accepted press then release reports the time between the two samples and leaves the button released |
| ButtonTask.BounceIgnored | main/tasks/button_task/button_task.c:38-41 | a change within 50 ms of the last accepted one is ignored |
| ButtonTask.BounceAcrossWrap | main/tasks/button_task/button_task.c:39 | 48 ms across the uint32 wrap is still a bounce |
| ButtonTask.ShortPressesToggle | main/tasks/button_task/button_task.c:52-56 | two short presses put the logging switch back where it was |
| ButtonTask.PressedIsDebounced | main/tasks/button_task/button_task.c:38-41 | the state `is_button_pressed` reports changes only on an accepted change, not with the raw pin |
| ButtonTask.Button.constructor | main/tasks/button_task/button_task.c:13-16 | the button statics start released, at time 0, debounce inactive |
| ButtonTask.Button.Poll | main/tasks/button_task/button_task.c:33-79 | one iteration: state is ButtonStep's; the logger is changed by PressEffect of the event; the result says whether esp_restart was called |
| ButtonTask.Button.IsButtonPressed | main/tasks/button_task/button_task.c:102-104 | reports the debounced pressed flag of the button state, not the pin level; PressedIsDebounced shows it only changes on an accepted level change |

## Left out

- Hardware and OS plumbing is not modelled: GPIO configuration, SPI and I2C bus set-up, task creation (`init_monitoring_task`, `init_button_task`, `init_dynamic_sdcard_detection`), `nvs_flash_init`/`init_config_manager`, `vTaskDelay` and the `while (1)` loops. Each task body is one step. Its inputs are the pin levels, tick times and driver results.
- Concurrency is not modelled. Each operation is atomic. A mutex take with its 1000 ms timeout is a boolean input. The sensor-data lock uses `portMAX_DELAY` and is always taken.
- IEEE single precision is not modelled. Conversions and the filter are over reals. `(raw / 10.0f) - 6.0` being evaluated in double is therefore not distinguished. `power_multiplier_mW` holds the real 0.8 and not the float nearest to it.
- The `%.6f`, `%d`, `%llu` and `"%s"` text rendering of a data row is kept at the level of typed fields in order. The CSV text itself is not produced.
- DataLogger.InitLogger: one `now` stands for the clock reads of the first name and of the SPIFFS retry (data_logger.c:139 and 159). The first name is discarded whenever the retry runs, so only one of the two reads ever shapes the result.
- The 32-byte truncation of the datetime string (`get_current_time_string`) is not modelled. The string is an input.
- The directory creation in `generate_log_filename` (`stat`/`mkdir`, data_logger.c:77-90) is not modelled: the file map has no directories.
- The test files `init_sdcard` writes and removes are not modelled, and neither is `sdmmc_card_print_info`. Only whether each probe could be opened is an input.
- `init_spiffs` is not modelled. Its result is the `spiffs` input of `InitIo`.
- `get_log_filename` and `get_current_storage_type` are not modelled as members. They return the `filename` and `storage` fields.
- `g_logging_enabled` and `is_sd_card_present` are not defined in these files. The logging switch starts at a value given to the `Logger` constructor. The presence flag is a field of the driver state.
- The float getters `ina219_getBusVoltage_V`, `ina219_getShuntVoltage_mV`, `ina219_getCurrent_mA` and `ina219_getPower_mW` (ina219.c:320-352) are not modelled. They are float wrappers over the raw getters, and the sampling task does not use them.
- The display call and the debug print are reduced: the display receives a `ScreenValues` record, and the debug line is the `report` result of `Monitor.Step`. `esp_restart` is the `restart` result of `Button.Poll`.
- NVS blobs of sizes other than 4 bytes are not modelled; a stored blob is a `uint32`. The namespace and `nvs_close` are not modelled. As in the code, the loaded interval is not range-checked.
- C strings are their characters before the terminator, so a NULL pointer is `None` and `strlen` is the length. Embedded NULs are not modelled.
- MonitoringTask.TimestampMs: requires an uptime below 2^63 µs, the range of the non-negative `int64_t` that `esp_timer_get_time` returns.
- SdcardDriver.TotalSpace: states the byte count only for `n_fatent >= 2`, which a mounted FAT volume always has.
- SdcardDriver.Sdcard.GetSdcardFreeSpace: returns the corrected, non-wrapping count (see Findings). `FreeSpaceAsWritten` states what the code computes.
- SdcardDriver.Sdcard.GetSdcardTotalSpace: returns the corrected, non-wrapping count (see Findings). `TotalSpaceAsWritten` states what the code computes.

## Findings

| source | as written | input that shows it | evidently intended | confidence | as-written member | corrected member |
|---|---|---|---|---|---|---|
| main/utils/sdcard_driver/sdcard_driver.c:185-188 | the free sector count and the byte count are multiplied in 32-bit `DWORD` and wrap before the cast to `size_t` | 131072 free clusters of 64 sectors (4 GiB free) gives 0 bytes | the free byte count without wrap-around, which needs a 64-bit result | medium, not executed | SdcardDriver.FreeSpaceWrapsAt4GiB | SdcardDriver.FreeSpace |
| main/utils/sdcard_driver/sdcard_driver.c:208-211 | the total sector count and the byte count are multiplied in 32-bit `DWORD` and wrap | `n_fatent` = 1048578 with 64 sectors per cluster (a 32 GiB data area) gives 0 bytes | the data-area size in bytes without wrap-around | medium, not executed | SdcardDriver.TotalSpaceWrapsAt32GiB | SdcardDriver.TotalSpace |
