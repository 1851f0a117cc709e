/** The log session manager: which backend the log lives on, the current
    session file, the logging switch, and every operation that opens,
    truncates or appends to a log file.

    The files of both backends are one map from path to lines. The outcome
    of each fopen, each mutex take, the SPIFFS mount and the wall clock are
    inputs; the SD-card driver is the Sdcard object of SdcardDriver. */
module DataLogger {

  import opened Esp
  import opened SensorTypes
  import opened LogFormat
  import SdcardDriver

  /** A line of a log file: the CSV header, or one data row. */
  datatype Line = Header | Row(fields: seq<Field>)

  type Files = map<string, seq<Line>>

  /** g_current_storage, g_log_filename, g_logging_enabled, whether
      g_log_mutex exists, and the files on both backends. */
  datatype LoggerState = LoggerState(storage: StorageType, filename: string, enabled: bool, mutex: bool, files: Files)

  function Contents(files: Files, path: string): seq<Line> {
    if path in files then files[path] else []
  }

  /** fopen(path, "w") and, when it succeeds, the header line. */
  function CreateWithHeader(files: Files, path: string, openOk: bool): (r: Files)
    ensures openOk ==> path in r && r[path] == [Header]
    ensures !openOk ==> r == files
    ensures forall p :: p != path ==> Contents(r, p) == Contents(files, p)
  {
    if openOk then files[path := [Header]] else files
  }

  /** fopen(path, "a") and, when it succeeds, one line at the end. A file
      that does not exist yet is created. */
  function Append(files: Files, path: string, line: Line, openOk: bool): (r: Files)
    ensures openOk ==> path in r && r[path] == Contents(files, path) + [line]
    ensures !openOk ==> r == files
    ensures forall p :: p != path ==> Contents(r, p) == Contents(files, p)
  {
    if openOk then files[path := Contents(files, path) + [line]] else files
  }

  /** The backend check_and_switch_storage wants. */
  function Desired(sdAvailable: bool): (st: StorageType)
    ensures st == StorageSdcard <==> sdAvailable
  {
    if sdAvailable then StorageSdcard else StorageSpiffs
  }

  // ------------------------------------------------------------ operations

  /** check_and_switch_storage: move to the SD card exactly when it is
      available. A switch points the logger at a new session on the new
      backend before it tries to create that file. */
  function SwitchStorage(s: LoggerState, sdAvailable: bool, now: Tm, openOk: bool): (r: (LoggerState, EspErr))
    ensures r.0.storage == Desired(sdAvailable)
    ensures r.0.enabled == s.enabled && r.0.mutex == s.mutex
    ensures Desired(sdAvailable) == s.storage ==> r == (s, Ok)
    ensures Desired(sdAvailable) != s.storage ==>
      r.0.filename == LogFilename(r.0.storage, now) &&
      (r.1 == Ok <==> openOk) &&
      r.0.files == CreateWithHeader(s.files, r.0.filename, openOk)
  {
    var desired := Desired(sdAvailable);
    if desired == s.storage then (s, Ok)
    else
      var path := LogFilename(desired, now);
      (s.(storage := desired, filename := path, files := CreateWithHeader(s.files, path, openOk)),
       if openOk then Ok else Fail)
  }

  /** log_sensor_data: nothing at all unless logging is on, the mutex exists
      and it could be taken; otherwise the storage check runs first and the
      row goes to whatever file is current after it. */
  function LogSample(s: LoggerState, d: SensorData, datetime: string, sdAvailable: bool, now: Tm,
                     lockTaken: bool, switchOpened: bool, appendOpened: bool): (r: LoggerState)
    ensures !s.enabled || !s.mutex || !lockTaken ==> r == s
    ensures s.enabled && s.mutex && lockTaken ==>
      var switched := SwitchStorage(s, sdAvailable, now, switchOpened).0;
      r.storage == Desired(sdAvailable) && r.filename == switched.filename &&
      r.enabled && r.mutex &&
      r.files == Append(switched.files, switched.filename, Row(RowFields(d, datetime)), appendOpened)
  {
    if !s.enabled || !s.mutex then s
    else if !lockTaken then s
    else
      var switched := SwitchStorage(s, sdAvailable, now, switchOpened).0;
      switched.(files := Append(switched.files, switched.filename, Row(RowFields(d, datetime)), appendOpened))
  }

  /** clear_log_file: truncate the current session file back to its header. */
  function ClearLog(s: LoggerState, lockTaken: bool, openOk: bool): (r: (LoggerState, EspErr))
    ensures r.1 == Ok <==> s.mutex && lockTaken && openOk
    ensures r.0.storage == s.storage && r.0.filename == s.filename
    ensures r.0.enabled == s.enabled && r.0.mutex == s.mutex
    ensures r.1 == Ok ==> r.0.files == s.files[s.filename := [Header]]
    ensures r.1 != Ok ==> r.0 == s
  {
    if !s.mutex then (s, Fail)
    else if !lockTaken then (s, Fail)
    else if openOk then (s.(files := CreateWithHeader(s.files, s.filename, true)), Ok)
    else (s, Fail)
  }

  /** create_new_log_file: the storage check (its result is ignored), then a
      fresh name from the clock and a new header-only file. The clock is read
      twice: `switchNow` by the storage check, `now` for the new name. */
  function NewLogFile(s: LoggerState, sdAvailable: bool, switchNow: Tm, now: Tm, lockTaken: bool,
                      switchOpened: bool, openOk: bool): (r: (LoggerState, EspErr))
    ensures !s.mutex || !lockTaken ==> r == (s, Fail)
    ensures s.mutex && lockTaken ==>
      var switched := SwitchStorage(s, sdAvailable, switchNow, switchOpened).0;
      r.0.storage == Desired(sdAvailable) &&
      r.0.filename == LogFilename(r.0.storage, now) &&
      r.0.enabled == s.enabled && r.0.mutex &&
      r.0.files == CreateWithHeader(switched.files, r.0.filename, openOk) &&
      (r.1 == Ok <==> openOk)
  {
    if !s.mutex then (s, Fail)
    else if !lockTaken then (s, Fail)
    else
      var switched := SwitchStorage(s, sdAvailable, switchNow, switchOpened).0;
      var path := LogFilename(switched.storage, now);
      (switched.(filename := path, files := CreateWithHeader(switched.files, path, openOk)),
       if openOk then Ok else Fail)
  }

  /** What init_data_logger's collaborators return: the SPIFFS mount, the
      SD-card bring-up, the mutex creation, the clock, and the two fopen
      attempts (the first, and the retry on SPIFFS). */
  datatype InitIo = InitIo(spiffs: EspErr, sd: SdcardDriver.InitEnv, mutexCreated: bool, now: Tm,
                           firstOpened: bool, retryOpened: bool)

  /** is_sdcard_available's side effect on the driver. */
  function Polled(sd: SdcardDriver.SdState, polled: bool): SdcardDriver.SdState {
    if polled then sd.(present := sd.available) else sd
  }

  /** init_data_logger: SPIFFS first, the SD card if it comes up, then the
      first session, falling back once to SPIFFS if the SD file cannot be
      created. Yields the logger state, the driver state and the result. */
  function InitLogger(s: LoggerState, sd: SdcardDriver.SdState, io: InitIo): (LoggerState, SdcardDriver.SdState, EspErr) {
    if io.spiffs != Ok then (s, sd, io.spiffs)
    else
      var (sd1, sdRet) := SdcardDriver.InitStep(sd, io.sd);
      var sd2 := Polled(sd1, sdRet == Ok);
      var storage := if sdRet == Ok && sd2.available then StorageSdcard else StorageSpiffs;
      if !io.mutexCreated then (s.(storage := storage, mutex := false), sd2, Fail)
      else
        // the re-check of the card before the first open
        var sd3 := Polled(sd2, storage == StorageSdcard);
        var (storage, path) :=
          if storage == StorageSdcard && !sd3.available then (StorageSpiffs, LogFilename(StorageSpiffs, io.now))
          else (storage, LogFilename(storage, io.now));
        var s := s.(storage := storage, filename := path, mutex := true);
        if io.firstOpened then (s.(files := CreateWithHeader(s.files, path, true)), sd3, Ok)
        else if storage == StorageSdcard then
          var retry := LogFilename(StorageSpiffs, io.now);
          var s := s.(storage := StorageSpiffs, filename := retry);
          (s.(files := CreateWithHeader(s.files, retry, io.retryOpened)), sd3, if io.retryOpened then Ok else Fail)
        else (s, sd3, Fail)
  }

  /** The SD card is chosen at start-up exactly when its bring-up succeeded. */
  predicate SdChosen(sd: SdcardDriver.SdState, io: InitIo) {
    SdcardDriver.InitStep(sd, io.sd).1 == Ok
  }

  /** The order init_data_logger tries things in, and what it leaves behind. */
  lemma InitOrder(s: LoggerState, sd: SdcardDriver.SdState, io: InitIo)
    ensures io.spiffs != Ok ==> InitLogger(s, sd, io) == (s, sd, io.spiffs)
    ensures io.spiffs == Ok ==>
      var (r, sd', ret) := InitLogger(s, sd, io);
      sd'.available == SdChosen(sd, io) && r.mutex == io.mutexCreated && r.enabled == s.enabled
    ensures io.spiffs == Ok && !io.mutexCreated ==>
      var (r, sd', ret) := InitLogger(s, sd, io);
      ret == Fail && r.files == s.files && (r.storage == StorageSdcard <==> SdChosen(sd, io))
    ensures io.spiffs == Ok && io.mutexCreated ==>
      var (r, sd', ret) := InitLogger(s, sd, io);
      (ret == Ok <==> io.firstOpened || (SdChosen(sd, io) && io.retryOpened)) &&
      (r.storage == StorageSdcard <==> SdChosen(sd, io) && io.firstOpened) &&
      r.filename == LogFilename(r.storage, io.now) &&
      (ret == Ok ==> Contents(r.files, r.filename) == [Header] && r.files == s.files[r.filename := [Header]]) &&
      (ret != Ok ==> r.files == s.files)
  {
  }

  /** The SD probe the logger repeats just before the first open never
      changes its choice: nothing runs between the two probes. */
  lemma InitRecheckNeverFires(sd: SdcardDriver.SdState, io: InitIo)
    ensures var (sd1, sdRet) := SdcardDriver.InitStep(sd, io.sd);
      sdRet == Ok ==> Polled(sd1, true).available
  {
  }

  /** get_storage_type_string. The C default case ("Unknown") is unreachable
      for the two-valued storage_type_t. */
  function StorageTypeString(st: StorageType): (r: string)
    ensures r == "SD Card" <==> st == StorageSdcard
    ensures r == "SPIFFS" <==> st == StorageSpiffs
  {
    match st
    case StorageSdcard => "SD Card"
    case StorageSpiffs => "SPIFFS"
  }

  // ------------------------------------------------------------ invariants

  /** The current session name, once the logger is up, is on the current
      backend. */
  predicate OnBackend(s: LoggerState) {
    s.mutex ==> |s.filename| >= 7 && s.filename[..7] == BasePath(s.storage)
  }

  /** Every session name starts with its backend's root, whatever the clock
      says. */
  lemma LogFilenameRoot(st: StorageType, t: Tm)
    ensures |LogFilename(st, t)| >= 7 && LogFilename(st, t)[..7] == BasePath(st)
  {
    var dir0 := DateDir(st, t);
    assert dir0[..7] == BasePath(st);
    TruncateKeepsPrefix(dir0, 128, 7);
    var dir := DirPath(st, t);
    var full := dir + "/" + Dec(t.hour, 2) + Dec(t.min, 2) + Dec(t.sec, 2) + ".csv";
    assert full[..7] == dir[..7];
    TruncateKeepsPrefix(full, 64, 7);
  }

  lemma TruncateKeepsPrefix(s: string, size: nat, k: nat)
    requires k <= |s| && k < size
    ensures |Truncate(s, size)| >= k && Truncate(s, size)[..k] == s[..k]
  {
  }

  /** The roots of the two backends differ, so their files never collide. */
  lemma BackendsDisjoint(p: string, q: string, st1: StorageType, st2: StorageType)
    requires |p| >= 7 && p[..7] == BasePath(st1) && |q| >= 7 && q[..7] == BasePath(st2) && st1 != st2
    ensures p != q
  {
    assert BasePath(st1)[2] != BasePath(st2)[2];
  }

  /** Every operation keeps the session name on the current backend. */
  lemma OperationsKeepOnBackend(s: LoggerState, d: SensorData, datetime: string, sdAvailable: bool, now: Tm,
                                later: Tm, lockTaken: bool, opened1: bool, opened2: bool)
    requires OnBackend(s)
    ensures OnBackend(SwitchStorage(s, sdAvailable, now, opened1).0)
    ensures OnBackend(LogSample(s, d, datetime, sdAvailable, now, lockTaken, opened1, opened2))
    ensures OnBackend(ClearLog(s, lockTaken, opened1).0)
    ensures OnBackend(NewLogFile(s, sdAvailable, now, later, lockTaken, opened1, opened2).0)
  {
    LogFilenameRoot(Desired(sdAvailable), now);
    LogFilenameRoot(Desired(sdAvailable), later);
  }

  /** After a logged sample, its row is the last line of the current session
      file, and that file is on the backend the card's availability selects. */
  lemma RowLandsOnCurrentBackend(s: LoggerState, d: SensorData, datetime: string, sdAvailable: bool, now: Tm,
                                 switchOpened: bool)
    requires OnBackend(s) && s.enabled && s.mutex
    ensures var r := LogSample(s, d, datetime, sdAvailable, now, true, switchOpened, true);
      r.filename[..7] == BasePath(Desired(sdAvailable)) &&
      |Contents(r.files, r.filename)| > 0 &&
      Contents(r.files, r.filename)[|Contents(r.files, r.filename)| - 1] == Row(RowFields(d, datetime))
  {
    OperationsKeepOnBackend(s, d, datetime, sdAvailable, now, now, true, switchOpened, true);
  }

  /** A failed append-open writes nothing and leaves only the storage
      check's effect behind. */
  lemma FailedAppendWritesNothing(s: LoggerState, d: SensorData, datetime: string, sdAvailable: bool, now: Tm,
                                  lockTaken: bool, switchOpened: bool)
    ensures LogSample(s, d, datetime, sdAvailable, now, lockTaken, switchOpened, false) ==
      (if s.enabled && s.mutex && lockTaken then SwitchStorage(s, sdAvailable, now, switchOpened).0 else s)
  {
  }

  /** Every file starts with the header. */
  predicate Headed(files: Files) {
    forall p :: p in files ==> |files[p]| > 0 && files[p][0] == Header
  }

  /** The logger is up and its session file exists. */
  predicate SessionOpen(s: LoggerState) {
    s.mutex ==> s.filename in s.files
  }

  lemma CreatePreservesHeaded(files: Files, path: string, openOk: bool)
    requires Headed(files)
    ensures Headed(CreateWithHeader(files, path, openOk))
  {
  }

  lemma AppendPreservesHeaded(files: Files, path: string, line: Line)
    requires Headed(files) && path in files
    ensures Headed(Append(files, path, line, true))
  {
    var r := Append(files, path, line, true);
    forall p | p in r
      ensures |r[p]| > 0 && r[p][0] == Header
    {
      if p != path {
        assert Contents(r, p) == Contents(files, p);
      }
    }
  }

  /** As long as every session file the logger tries to create is created,
      every file it has written starts with exactly the header: sampling,
      clearing and rotating all keep it so. */
  lemma OperationsKeepHeaders(s: LoggerState, d: SensorData, datetime: string, sdAvailable: bool, now: Tm,
                              later: Tm, lockTaken: bool, appendOpened: bool)
    requires Headed(s.files) && SessionOpen(s)
    ensures var r := SwitchStorage(s, sdAvailable, now, true).0; Headed(r.files) && SessionOpen(r)
    ensures var r := LogSample(s, d, datetime, sdAvailable, now, lockTaken, true, appendOpened);
      Headed(r.files) && SessionOpen(r)
    ensures var r := ClearLog(s, lockTaken, true).0; Headed(r.files) && SessionOpen(r)
    ensures var r := NewLogFile(s, sdAvailable, now, later, lockTaken, true, true).0; Headed(r.files) && SessionOpen(r)
  {
    var switched := SwitchStorage(s, sdAvailable, now, true).0;
    CreatePreservesHeaded(s.files, LogFilename(Desired(sdAvailable), now), true);
    if s.enabled && s.mutex && lockTaken && appendOpened {
      AppendPreservesHeaded(switched.files, switched.filename, Row(RowFields(d, datetime)));
    }
    CreatePreservesHeaded(switched.files, LogFilename(Desired(sdAvailable), later), true);
  }

  /** If the header write of a storage switch fails, the next sample's
      append-open creates the new session file with no header: its first
      line is a data row. */
  lemma HeaderlessAfterFailedSwitch(s: LoggerState, d: SensorData, datetime: string, sdAvailable: bool, now: Tm)
    requires s.enabled && s.mutex && Desired(sdAvailable) != s.storage
    requires LogFilename(Desired(sdAvailable), now) !in s.files
    ensures var r := LogSample(s, d, datetime, sdAvailable, now, true, false, true);
      r.filename == LogFilename(Desired(sdAvailable), now) &&
      r.files[r.filename] == [Row(RowFields(d, datetime))]
  {
  }

  /** Nothing is lost: each operation leaves every file it does not create
      with "w" holding at least what it held, as a prefix. */
  predicate Keeps(old_files: Files, new_files: Files, created: string) {
    forall p :: p in old_files && p != created ==> p in new_files && old_files[p] <= new_files[p]
  }

  lemma LogSampleKeeps(s: LoggerState, d: SensorData, datetime: string, sdAvailable: bool, now: Tm,
                       lockTaken: bool, switchOpened: bool, appendOpened: bool)
    ensures Keeps(s.files, LogSample(s, d, datetime, sdAvailable, now, lockTaken, switchOpened, appendOpened).files,
                  LogFilename(Desired(sdAvailable), now))
  {
    var r := LogSample(s, d, datetime, sdAvailable, now, lockTaken, switchOpened, appendOpened);
    var created := LogFilename(Desired(sdAvailable), now);
    forall p | p in s.files && p != created
      ensures p in r.files && s.files[p] <= r.files[p]
    {
      if s.enabled && s.mutex && lockTaken {
        var switched := SwitchStorage(s, sdAvailable, now, switchOpened).0;
        assert Contents(switched.files, p) == s.files[p];
      }
    }
  }

  /** A storage switch never truncates the session it leaves: the old file
      is on the other backend. */
  lemma SwitchKeepsOldSession(s: LoggerState, sdAvailable: bool, now: Tm, openOk: bool)
    requires OnBackend(s) && s.mutex && Desired(sdAvailable) != s.storage && s.filename in s.files
    ensures var r := SwitchStorage(s, sdAvailable, now, openOk).0;
      s.filename in r.files && r.files[s.filename] == s.files[s.filename]
  {
    LogFilenameRoot(Desired(sdAvailable), now);
    BackendsDisjoint(s.filename, LogFilename(Desired(sdAvailable), now), s.storage, Desired(sdAvailable));
  }

  /** Rotating to a new file within the same second on the same backend
      reuses the current name and so truncates the current session. */
  lemma NewLogFileSameSecond(s: LoggerState, sdAvailable: bool, switchNow: Tm, now: Tm, openOk: bool)
    requires s.mutex && Desired(sdAvailable) == s.storage && s.filename == LogFilename(s.storage, now)
    ensures var (r, ret) := NewLogFile(s, sdAvailable, switchNow, now, true, true, openOk);
      r.filename == s.filename && (openOk ==> r.files[r.filename] == [Header])
  {
  }

  /** A rotation that switches backend across a second boundary creates two
      session files: the storage check's, named from the first clock read,
      is left behind holding only the header, and the logger moves on to the
      second name, which is created only if its own open succeeded. */
  lemma SwitchThenRotateOrphan(s: LoggerState, sdAvailable: bool, switchNow: Tm, now: Tm, openOk: bool)
    requires s.mutex && Desired(sdAvailable) != s.storage
    requires ValidTm(switchNow) && ValidTm(now) && switchNow != now
    ensures var (r, ret) := NewLogFile(s, sdAvailable, switchNow, now, true, true, openOk);
      var orphan := LogFilename(Desired(sdAvailable), switchNow);
      r.filename == LogFilename(Desired(sdAvailable), now) && r.filename != orphan &&
      orphan in r.files && r.files[orphan] == [Header] &&
      (ret == Ok <==> openOk) &&
      (openOk ==> r.files[r.filename] == [Header]) &&
      (!openOk ==> (r.filename in r.files <==> r.filename in s.files))
  {
    if LogFilename(Desired(sdAvailable), now) == LogFilename(Desired(sdAvailable), switchNow) {
      LogFilenameInjective(Desired(sdAvailable), now, Desired(sdAvailable), switchNow);
    }
  }

  // ------------------------------------------------------------- the logger

  /** The logger's module globals as a mutable object bound to the SD-card
      driver it polls. */
  class Logger {
    var storage: StorageType
    var filename: string
    var enabled: bool
    var mutex: bool
    var files: Files
    const sd: SdcardDriver.Sdcard

    function State(): LoggerState
      reads this
    {
      LoggerState(storage, filename, enabled, mutex, files)
    }

    /** The globals before init: SPIFFS, an empty name, no mutex. Whether
        logging starts enabled is set where g_logging_enabled is defined,
        and what is already on the backends is given. */
    constructor (sd: SdcardDriver.Sdcard, enabled: bool, files: Files)
      ensures this.sd == sd
      ensures State() == LoggerState(StorageSpiffs, "", enabled, false, files)
    {
      this.sd := sd;
      storage := StorageSpiffs;
      filename := "";
      this.enabled := enabled;
      mutex := false;
      this.files := files;
    }

    /** generate_log_filename. */
    method GenerateLogFilename(now: Tm)
      modifies this`filename
      ensures filename == LogFilename(storage, now)
    {
      filename := LogFilename(storage, now);
    }

    /** Opens the current session file with "w" and writes the header. */
    method WriteHeader(openOk: bool)
      modifies this`files
      ensures files == CreateWithHeader(old(files), filename, openOk)
    {
      if openOk {
        files := files[filename := [Header]];
      }
    }

    /** init_data_logger. */
    method InitDataLogger(io: InitIo) returns (ret: EspErr)
      modifies this, sd
      ensures (State(), sd.State(), ret) == InitLogger(old(State()), old(sd.State()), io)
    {
      if io.spiffs != Ok {
        return io.spiffs;
      }
      var sdRet := sd.InitSdcard(io.sd);
      var available := false;
      if sdRet == Ok {
        available := sd.IsSdcardAvailable();
      }
      storage := if sdRet == Ok && available then StorageSdcard else StorageSpiffs;
      mutex := io.mutexCreated;
      if !mutex {
        return Fail;
      }
      GenerateLogFilename(io.now);
      if storage == StorageSdcard {
        // the card cannot have gone away since it was selected
        var still := sd.IsSdcardAvailable();
        assert still;
      }
      if io.firstOpened {
        WriteHeader(true);
        return Ok;
      }
      if storage != StorageSdcard {
        return Fail;
      }
      storage := StorageSpiffs;
      GenerateLogFilename(io.now);
      WriteHeader(io.retryOpened);
      ret := if io.retryOpened then Ok else Fail;
    }

    /** check_and_switch_storage. */
    method CheckAndSwitchStorage(now: Tm, openOk: bool) returns (ret: EspErr)
      modifies this, sd`present
      ensures (State(), ret) == SwitchStorage(old(State()), old(sd.available), now, openOk)
      ensures sd.State() == Polled(old(sd.State()), true)
    {
      var available := sd.IsSdcardAvailable();
      var desired := if available then StorageSdcard else StorageSpiffs;
      if desired != storage {
        storage := desired;
        GenerateLogFilename(now);
        WriteHeader(openOk);
        return if openOk then Ok else Fail;
      }
      ret := Ok;
    }

    /** log_sensor_data. */
    method LogSensorData(d: SensorData, datetime: string, now: Tm, lockTaken: bool, switchOpened: bool, appendOpened: bool)
      modifies this, sd`present
      ensures State() == LogSample(old(State()), d, datetime, old(sd.available), now, lockTaken, switchOpened, appendOpened)
      ensures sd.State() == Polled(old(sd.State()), old(enabled && mutex) && lockTaken)
    {
      if !enabled || !mutex {
        return;
      }
      if lockTaken {
        var _ := CheckAndSwitchStorage(now, switchOpened);
        if appendOpened {
          files := files[filename := Contents(files, filename) + [Row(RowFields(d, datetime))]];
        }
      }
    }

    /** set_logging_enabled. */
    method SetLoggingEnabled(on: bool)
      modifies this`enabled
      ensures enabled == on && IsLoggingEnabled() == on
    {
      enabled := on;
    }

    /** is_logging_enabled: the flag that gates log_sensor_data and that a
        short button press toggles. */
    function IsLoggingEnabled(): (on: bool)
      reads this
      ensures on <==> State().enabled
    {
      enabled
    }

    /** get_log_file_size: the size stat reports for the current file, or 0
        when there is no mutex, the mutex is busy, or stat fails. */
    method GetLogFileSize(lockTaken: bool, stat: Option<nat>) returns (size: nat)
      ensures size == (if mutex && lockTaken && stat.Some? then stat.value else 0)
    {
      if !mutex {
        return 0;
      }
      size := 0;
      if lockTaken {
        if stat.Some? {
          size := stat.value;
        }
      }
    }

    /** clear_log_file. */
    method ClearLogFile(lockTaken: bool, openOk: bool) returns (ret: EspErr)
      modifies this
      ensures (State(), ret) == ClearLog(old(State()), lockTaken, openOk)
    {
      if !mutex {
        return Fail;
      }
      ret := Ok;
      if lockTaken {
        WriteHeader(openOk);
        if !openOk {
          ret := Fail;
        }
      } else {
        ret := Fail;
      }
    }

    /** create_new_log_file. */
    method CreateNewLogFile(switchNow: Tm, now: Tm, lockTaken: bool, switchOpened: bool, openOk: bool) returns (ret: EspErr)
      modifies this, sd`present
      ensures (State(), ret) == NewLogFile(old(State()), old(sd.available), switchNow, now, lockTaken, switchOpened, openOk)
      ensures sd.State() == Polled(old(sd.State()), old(mutex) && lockTaken)
    {
      if !mutex {
        return Fail;
      }
      ret := Ok;
      if lockTaken {
        var _ := CheckAndSwitchStorage(switchNow, switchOpened);
        GenerateLogFilename(now);
        WriteHeader(openOk);
        if !openOk {
          ret := Fail;
        }
      } else {
        ret := Fail;
      }
    }

    /** get_storage_type_string. */
    function GetStorageTypeString(): string
      reads this
    {
      StorageTypeString(storage)
    }
  }
}
