/** What the data logger writes: the per-session path
    <root>/YYYYMMDD/HHMMSS.csv, the 26-column CSV header, and the field
    layout of a data row. */
module LogFormat {

  import opened Esp
  import opened SensorTypes

  /** storage_type_t. */
  datatype StorageType = StorageSpiffs | StorageSdcard

  /** The mount point the log directory lives under. */
  function BasePath(st: StorageType): (p: string)
    ensures |p| == 7 && p[0] == '/'
  {
    if st == StorageSdcard then "/sdcard" else "/spiffs"
  }

  /** The fields of struct tm the path is built from, as localtime_r fills
      them: years since 1900 and a zero-based month. */
  datatype Tm = Tm(year: nat, mon: nat, mday: nat, hour: nat, min: nat, sec: nat)

  /** A broken-down time in the range localtime_r produces, with a four-digit
      calendar year. */
  predicate ValidTm(t: Tm) {
    1000 <= t.year + 1900 <= 9999 && t.mon < 12 && 1 <= t.mday <= 31 &&
    t.hour < 24 && t.min < 60 && t.sec <= 60
  }

  // -------------------------------------------------------- decimal text

  function DigitChar(d: nat): (c: char)
    requires d < 10
    ensures IsDigit(c) && DigitValue(c) == d
  {
    ('0' as int + d) as char
  }

  predicate IsDigit(c: char) {
    '0' <= c <= '9'
  }

  /** The shortest decimal numeral of n. */
  function Digits(n: nat): (s: string)
    ensures 1 <= |s|
    ensures forall i :: 0 <= i < |s| ==> IsDigit(s[i])
    decreases n
  {
    if n < 10 then [DigitChar(n)] else Digits(n / 10) + [DigitChar(n % 10)]
  }

  function Zeros(k: nat): (s: string)
    ensures |s| == k && forall i :: 0 <= i < k ==> s[i] == '0'
  {
    if k == 0 then [] else Zeros(k - 1) + ['0']
  }

  /** printf's %0<width>d for a non-negative value. */
  function Dec(n: nat, width: nat): (s: string)
    ensures forall i :: 0 <= i < |s| ==> IsDigit(s[i])
  {
    var d := Digits(n);
    if |d| >= width then d else Zeros(width - |d|) + d
  }

  /** The value of a decimal numeral. */
  function Value(s: string): nat
    decreases |s|
  {
    if s == [] then 0
    else
      Value(s[..|s| - 1]) * 10 + DigitValue(s[|s| - 1])
  }

  function DigitValue(c: char): nat {
    if IsDigit(c) then (c - '0') as nat else 0
  }

  /** The value of a two- and of a four-digit field, digit by digit. */
  function Num2(s: string): nat
    requires |s| == 2
  {
    DigitValue(s[0]) * 10 + DigitValue(s[1])
  }

  function Num4(s: string): nat
    requires |s| == 4
  {
    DigitValue(s[0]) * 1000 + DigitValue(s[1]) * 100 + DigitValue(s[2]) * 10 + DigitValue(s[3])
  }

  lemma Num2Value(s: string)
    requires |s| == 2
    ensures Num2(s) == Value(s)
  {
    OneDigit(s[..1]);
  }

  lemma OneDigit(s: string)
    requires |s| == 1
    ensures Value(s) == DigitValue(s[0])
  {
    assert s[..0] == [];
  }

  lemma Num4Value(s: string)
    requires |s| == 4
    ensures Num4(s) == Value(s)
  {
    Num2Value(s[..2]);
    assert Value(s[..3]) == Value(s[..3][..2]) * 10 + DigitValue(s[2]);
    assert s[..3][..2] == s[..2];
  }

  function Pow10(k: nat): (r: nat)
    ensures r >= 1
  {
    if k == 0 then 1 else 10 * Pow10(k - 1)
  }

  lemma {:induction false} DigitsValue(n: nat)
    ensures Value(Digits(n)) == n
    decreases n
  {
    if n >= 10 {
      DigitsValue(n / 10);
      var d := Digits(n);
      assert d[..|d| - 1] == Digits(n / 10);
      assert d[|d| - 1] == DigitChar(n % 10);
    }
  }

  lemma {:induction false} DigitsLength(n: nat, width: nat)
    requires 1 <= width && n < Pow10(width)
    ensures |Digits(n)| <= width
    decreases n
  {
    if n >= 10 {
      assert width >= 2;
      assert n / 10 < Pow10(width - 1);
      DigitsLength(n / 10, width - 1);
    }
  }

  lemma {:induction false} ZerosValue(k: nat, s: string)
    ensures Value(Zeros(k) + s) == Value(s)
    decreases |s|
  {
    if s == [] {
      ZerosOnly(k);
      assert Zeros(k) + s == Zeros(k);
    } else {
      var t := Zeros(k) + s;
      assert t[..|t| - 1] == Zeros(k) + s[..|s| - 1];
      ZerosValue(k, s[..|s| - 1]);
    }
  }

  lemma {:induction false} ZerosOnly(k: nat)
    ensures Value(Zeros(k)) == 0
  {
    if k > 0 {
      assert Zeros(k)[..k - 1] == Zeros(k - 1);
      ZerosOnly(k - 1);
    }
  }

  /** %0wd is exactly w characters when the value has at most w digits, and
      reads back as the value. */
  lemma DecRoundTrip(n: nat, width: nat)
    requires 1 <= width && n < Pow10(width)
    ensures |Dec(n, width)| == width
    ensures Value(Dec(n, width)) == n
  {
    DigitsValue(n);
    DigitsLength(n, width);
    var d := Digits(n);
    if |d| < width {
      assert Dec(n, width) == Zeros(width - |d|) + d;
      ZerosValue(width - |d|, d);
    } else {
      assert Dec(n, width) == d;
    }
  }

  // ----------------------------------------------------------- file names

  /** What snprintf leaves in a buffer of `size` bytes: at most size - 1
      characters before the terminator. */
  function Truncate(s: string, size: nat): (r: string)
    requires size >= 1
    ensures |r| < size && |r| <= |s| && r == s[..|r|]
    ensures |s| < size ==> r == s
  {
    if |s| >= size then s[..size - 1] else s
  }

  /** The date-bucket directory <root>/YYYYMMDD, as formatted... */
  function DateDir(st: StorageType, t: Tm): string {
    BasePath(st) + "/" + Dec(t.year + 1900, 4) + Dec(t.mon + 1, 2) + Dec(t.mday, 2)
  }

  /** ... and as stored into the 128-byte dir_path. */
  function DirPath(st: StorageType, t: Tm): string {
    Truncate(DateDir(st, t), 128)
  }

  /** generate_log_filename: the session file name as stored into the
      64-byte g_log_filename. */
  function LogFilename(st: StorageType, t: Tm): string {
    Truncate(DirPath(st, t) + "/" + Dec(t.hour, 2) + Dec(t.min, 2) + Dec(t.sec, 2) + ".csv", 64)
  }

  /** The untruncated layout <root>/YYYYMMDD/HHMMSS.csv. */
  function Layout(st: StorageType, t: Tm): string {
    DateDir(st, t) + "/" + Dec(t.hour, 2) + Dec(t.min, 2) + Dec(t.sec, 2) + ".csv"
  }

  /** The six numeric parts of a valid time have their nominal widths... */
  lemma TmLengths(t: Tm)
    requires ValidTm(t)
    ensures |Dec(t.year + 1900, 4)| == 4 && |Dec(t.mon + 1, 2)| == 2 && |Dec(t.mday, 2)| == 2
    ensures |Dec(t.hour, 2)| == 2 && |Dec(t.min, 2)| == 2 && |Dec(t.sec, 2)| == 2
  {
    TmValues(t);
  }

  /** ... and read back as the fields they print. */
  lemma TmValues(t: Tm)
    requires ValidTm(t)
    ensures |Dec(t.year + 1900, 4)| == 4 && Num4(Dec(t.year + 1900, 4)) == t.year + 1900
    ensures |Dec(t.mon + 1, 2)| == 2 && Num2(Dec(t.mon + 1, 2)) == t.mon + 1
    ensures |Dec(t.mday, 2)| == 2 && Num2(Dec(t.mday, 2)) == t.mday
    ensures |Dec(t.hour, 2)| == 2 && Num2(Dec(t.hour, 2)) == t.hour
    ensures |Dec(t.min, 2)| == 2 && Num2(Dec(t.min, 2)) == t.min
    ensures |Dec(t.sec, 2)| == 2 && Num2(Dec(t.sec, 2)) == t.sec
  {
    assert Pow10(2) == 100 && Pow10(4) == 10000;
    DecRoundTrip(t.year + 1900, 4);
    Num4Value(Dec(t.year + 1900, 4));
    DecRoundTrip(t.mon + 1, 2);
    Num2Value(Dec(t.mon + 1, 2));
    DecRoundTrip(t.mday, 2);
    Num2Value(Dec(t.mday, 2));
    DecRoundTrip(t.hour, 2);
    Num2Value(Dec(t.hour, 2));
    DecRoundTrip(t.min, 2);
    Num2Value(Dec(t.min, 2));
    DecRoundTrip(t.sec, 2);
    Num2Value(Dec(t.sec, 2));
  }

  /** With a four-digit year the directory is 16 characters and the
      whole path 27. */
  lemma LayoutLengths(st: StorageType, t: Tm)
    requires ValidTm(t)
    ensures |DateDir(st, t)| == 16 && |Layout(st, t)| == 27
  {
    TmLengths(t);
    ConcatLengths(BasePath(st), Dec(t.year + 1900, 4), Dec(t.mon + 1, 2), Dec(t.mday, 2));
    ConcatLengths(DateDir(st, t), Dec(t.hour, 2), Dec(t.min, 2), Dec(t.sec, 2) + ".csv");
  }

  lemma ConcatLengths(a: string, b: string, c: string, d: string)
    ensures |a + "/" + b + c + d| == |a| + 1 + |b| + |c| + |d|
  {
  }

  /** With a four-digit year the path fits both buffers, and so is never
      truncated. */
  lemma LogFilenameLayout(st: StorageType, t: Tm)
    requires ValidTm(t)
    ensures |LogFilename(st, t)| == 27
    ensures LogFilename(st, t) == Layout(st, t)
  {
    LayoutLengths(st, t);
    assert DirPath(st, t) == DateDir(st, t);
    assert LogFilename(st, t) == Truncate(Layout(st, t), 64);
  }

  /** The layout in terms of its seven parts. */
  lemma LayoutParts(st: StorageType, t: Tm)
    ensures Layout(st, t) == BasePath(st) + "/" + Dec(t.year + 1900, 4) + Dec(t.mon + 1, 2) + Dec(t.mday, 2) +
                             "/" + Dec(t.hour, 2) + Dec(t.min, 2) + Dec(t.sec, 2) + ".csv"
  {
  }

  /** The shape of a session path: 27 characters, a backend root, '/' at 7
      and 16, ".csv" at the end. */
  predicate WellShaped(p: string) {
    |p| == 27 && p[7] == '/' && p[16] == '/' && p[23..] == ".csv" &&
    (p[..7] == BasePath(StorageSdcard) || p[..7] == BasePath(StorageSpiffs))
  }

  /** The time fields and backend read back from a session path. */
  function ParseLogFilename(p: string): Option<(StorageType, Tm)> {
    if !WellShaped(p) then None
    else
      var st := if p[..7] == BasePath(StorageSdcard) then StorageSdcard else StorageSpiffs;
      var year, mon := Num4(p[8..12]), Num2(p[12..14]);
      if year < 1900 || mon < 1 then None
      else Some((st, Tm(year - 1900, mon - 1, Num2(p[14..16]), Num2(p[17..19]), Num2(p[19..21]), Num2(p[21..23]))))
  }

  /** Where each part of <root>/YYYYMMDD/HHMMSS.csv sits. */
  lemma LayoutSlices(root: string, y: string, mo: string, d: string, h: string, mi: string, sc: string)
    requires |root| == 7 && |y| == 4 && |mo| == 2 && |d| == 2 && |h| == 2 && |mi| == 2 && |sc| == 2
    ensures var p := root + "/" + y + mo + d + "/" + h + mi + sc + ".csv";
      |p| == 27 && p[..7] == root && p[7] == '/' && p[8..12] == y && p[12..14] == mo &&
      p[14..16] == d && p[16] == '/' && p[17..19] == h && p[19..21] == mi && p[21..23] == sc &&
      p[23..] == ".csv"
  {
    var dir := root + "/" + y + mo + d;
    var p := dir + "/" + h + mi + sc + ".csv";
    assert p == dir + ("/" + h + mi + sc + ".csv");
    assert p[..16] == dir;
    assert p[16..] == "/" + h + mi + sc + ".csv";
    assert dir[..7] == root && dir[8..12] == y && dir[12..14] == mo && dir[14..16] == d;
    var tail := "/" + h + mi + sc + ".csv";
    assert tail[1..3] == h && tail[3..5] == mi && tail[5..7] == sc && tail[7..] == ".csv";
  }

  /** A path laid out from parts of the right widths has the session shape. */
  lemma LayoutShaped(st: StorageType, y: string, mo: string, d: string, h: string, mi: string, sc: string)
    requires |y| == 4 && |mo| == 2 && |d| == 2 && |h| == 2 && |mi| == 2 && |sc| == 2
    ensures var p := BasePath(st) + "/" + y + mo + d + "/" + h + mi + sc + ".csv";
      WellShaped(p) && (p[..7] == BasePath(StorageSdcard) <==> st == StorageSdcard)
  {
    LayoutSlices(BasePath(st), y, mo, d, h, mi, sc);
    assert BasePath(StorageSdcard) != BasePath(StorageSpiffs) by {
      assert BasePath(StorageSdcard)[2] != BasePath(StorageSpiffs)[2];
    }
  }

  /** Parsing a well-shaped path reads back its root and its six numbers. */
  lemma ParseShaped(p: string, st: StorageType)
    requires WellShaped(p) && (p[..7] == BasePath(StorageSdcard) <==> st == StorageSdcard)
    requires Num4(p[8..12]) >= 1900 && Num2(p[12..14]) >= 1
    ensures ParseLogFilename(p) ==
      Some((st, Tm(Num4(p[8..12]) - 1900, Num2(p[12..14]) - 1, Num2(p[14..16]), Num2(p[17..19]), Num2(p[19..21]), Num2(p[21..23]))))
  {
  }

  /** A path laid out from numerals of the right widths parses back to the
      backend and the numerals' values. */
  lemma ParseLaidOut(st: StorageType, y: string, mo: string, d: string, h: string, mi: string, sc: string)
    requires |y| == 4 && |mo| == 2 && |d| == 2 && |h| == 2 && |mi| == 2 && |sc| == 2
    requires Num4(y) >= 1900 && Num2(mo) >= 1
    ensures var p := BasePath(st) + "/" + y + mo + d + "/" + h + mi + sc + ".csv";
      p[..7] == BasePath(st) && p[7] == '/' && p[16] == '/' && p[23..] == ".csv" &&
      ParseLogFilename(p) == Some((st, Tm(Num4(y) - 1900, Num2(mo) - 1, Num2(d), Num2(h), Num2(mi), Num2(sc))))
  {
    var p := BasePath(st) + "/" + y + mo + d + "/" + h + mi + sc + ".csv";
    LayoutSlices(BasePath(st), y, mo, d, h, mi, sc);
    LayoutShaped(st, y, mo, d, h, mi, sc);
    ParseShaped(p, st);
  }

  /** The name is the root of its backend, a '/' at 7 and 16 and ".csv",
      and it decodes back to the backend and the time it was made from. */
  lemma ParseLogFilenameInverse(st: StorageType, t: Tm)
    requires ValidTm(t)
    ensures |LogFilename(st, t)| == 27
    ensures var p := LogFilename(st, t);
      p[..7] == BasePath(st) && p[7] == '/' && p[16] == '/' && p[23..] == ".csv"
    ensures ParseLogFilename(LogFilename(st, t)) == Some((st, t))
  {
    LogFilenameLayout(st, t);
    LayoutParts(st, t);
    TmValues(t);
    ParseLaidOut(st, Dec(t.year + 1900, 4), Dec(t.mon + 1, 2), Dec(t.mday, 2),
                 Dec(t.hour, 2), Dec(t.min, 2), Dec(t.sec, 2));
  }

  /** Two sessions get the same file only if they were opened on the same
      backend in the same second. */
  lemma LogFilenameInjective(st1: StorageType, t1: Tm, st2: StorageType, t2: Tm)
    requires ValidTm(t1) && ValidTm(t2)
    requires LogFilename(st1, t1) == LogFilename(st2, t2)
    ensures st1 == st2 && t1 == t2
  {
    ParseLogFilenameInverse(st1, t1);
    ParseLogFilenameInverse(st2, t2);
  }

  // ----------------------------------------------------------- CSV header

  /** The per-channel column suffixes, in the order the header lists them. */
  const Quantities: seq<string> := [
    "bus_voltage", "shunt_voltage", "current", "power",
    "raw_bus", "raw_shunt", "raw_current", "raw_power",
    "bus_avg", "shunt_avg", "current_avg", "power_avg"]

  /** The twelve column names of one channel. */
  function ChannelColumns(prefix: string): (cols: seq<string>)
    ensures |cols| == 12
    ensures forall i :: 0 <= i < 12 ==> cols[i] == prefix + Quantities[i]
  {
    seq(12, i requires 0 <= i < 12 => prefix + Quantities[i])
  }

  /** The column names of the header line every session starts with. */
  function HeaderColumns(): (cols: seq<string>)
    ensures |cols| == 26
  {
    ["timestamp", "datetime"] + ChannelColumns("sensor1_") + ChannelColumns("sensor2_")
  }

  // ------------------------------------------------------------- CSV rows

  /** A rendered CSV field, by its printf conversion: %llu, "%s", %.6f, %d. */
  datatype Field = Unsigned(n: int) | Quoted(text: string) | Fixed6(x: real) | Signed(i: int)

  /** The twelve fields of one channel, in the order the row prints them. */
  function ChannelFields(r: SensorReading): seq<Field> {
    [Fixed6(r.busVoltage), Fixed6(r.shuntVoltage), Fixed6(r.current), Fixed6(r.power),
     Signed(r.rawBus), Signed(r.rawShunt), Signed(r.rawCurrent), Signed(r.rawPower),
     Fixed6(r.busAvg), Fixed6(r.shuntAvg), Fixed6(r.currentAvg), Fixed6(r.powerAvg)]
  }

  /** The fields log_sensor_data prints for one record. */
  function RowFields(d: SensorData, datetime: string): seq<Field> {
    [Unsigned(d.timestamp), Quoted(datetime)] + ChannelFields(d.sensor1) + ChannelFields(d.sensor2)
  }

  /** The value a column is named after, looked up by the column's name:
      the reference the row layout is checked against. */
  function QuantityValue(r: SensorReading, q: string): Option<Field> {
    if q == "bus_voltage" then Some(Fixed6(r.busVoltage))
    else if q == "shunt_voltage" then Some(Fixed6(r.shuntVoltage))
    else if q == "current" then Some(Fixed6(r.current))
    else if q == "power" then Some(Fixed6(r.power))
    else if q == "raw_bus" then Some(Signed(r.rawBus))
    else if q == "raw_shunt" then Some(Signed(r.rawShunt))
    else if q == "raw_current" then Some(Signed(r.rawCurrent))
    else if q == "raw_power" then Some(Signed(r.rawPower))
    else if q == "bus_avg" then Some(Fixed6(r.busAvg))
    else if q == "shunt_avg" then Some(Fixed6(r.shuntAvg))
    else if q == "current_avg" then Some(Fixed6(r.currentAvg))
    else if q == "power_avg" then Some(Fixed6(r.powerAvg))
    else None
  }

  function ColumnValue(d: SensorData, datetime: string, column: string): Option<Field> {
    if |column| > 8 && column[..8] == "sensor1_" then QuantityValue(d.sensor1, column[8..])
    else if |column| > 8 && column[..8] == "sensor2_" then QuantityValue(d.sensor2, column[8..])
    else if column == "timestamp" then Some(Unsigned(d.timestamp))
    else if column == "datetime" then Some(Quoted(datetime))
    else None
  }

  /** Each quantity name selects the channel field printed in its position. */
  lemma QuantityMatches(r: SensorReading, i: nat)
    requires i < 12
    ensures |Quantities[i]| >= 5
    ensures QuantityValue(r, Quantities[i]) == Some(ChannelFields(r)[i])
  {
    if i == 0 {
    } else if i == 1 {
    } else if i == 2 {
    } else if i == 3 {
    } else if i == 4 {
    } else if i == 5 {
    } else if i == 6 {
    } else if i == 7 {
    } else if i == 8 {
    } else if i == 9 {
    } else if i == 10 {
    } else {
    }
  }

  /** Column 2 + i names channel 1's quantity i, column 14 + i channel 2's,
      and the row prints the matching channel field there. */
  lemma ChannelPositions(d: SensorData, datetime: string, i: nat)
    requires i < 12
    ensures HeaderColumns()[2 + i] == "sensor1_" + Quantities[i]
    ensures HeaderColumns()[14 + i] == "sensor2_" + Quantities[i]
    ensures RowFields(d, datetime)[2 + i] == ChannelFields(d.sensor1)[i]
    ensures RowFields(d, datetime)[14 + i] == ChannelFields(d.sensor2)[i]
  {
    var a, b := ChannelColumns("sensor1_"), ChannelColumns("sensor2_");
    assert HeaderColumns() == ["timestamp", "datetime"] + a + b;
    assert (["timestamp", "datetime"] + a + b)[2 + i] == a[i];
    assert (["timestamp", "datetime"] + a + b)[14 + i] == b[i];
    var f, g := ChannelFields(d.sensor1), ChannelFields(d.sensor2);
    assert RowFields(d, datetime) == [Unsigned(d.timestamp), Quoted(datetime)] + f + g;
  }

  /** A row has one field per header column, and field i holds the value
      column i is named after. */
  lemma RowMatchesHeader(d: SensorData, datetime: string)
    ensures |RowFields(d, datetime)| == |HeaderColumns()| == 26
    ensures forall i :: 0 <= i < 26 ==>
      ColumnValue(d, datetime, HeaderColumns()[i]) == Some(RowFields(d, datetime)[i])
  {
    var cols, row := HeaderColumns(), RowFields(d, datetime);
    forall i | 0 <= i < 26
      ensures ColumnValue(d, datetime, cols[i]) == Some(row[i])
    {
      if i == 0 {
        assert cols[0] == "timestamp";
        assert cols[0][..8] != "sensor1_" && cols[0][..8] != "sensor2_" by {
          assert cols[0][0] == 't';
        }
      } else if i == 1 {
        assert cols[1] == "datetime";
        assert |cols[1]| == 8;
      } else if i < 14 {
        ChannelPositions(d, datetime, i - 2);
        QuantityMatches(d.sensor1, i - 2);
        var c := cols[i];
        assert c[..8] == "sensor1_" && c[8..] == Quantities[i - 2];
      } else {
        ChannelPositions(d, datetime, i - 14);
        QuantityMatches(d.sensor2, i - 14);
        var c := cols[i];
        assert c[..8] == "sensor2_" && c[8..] == Quantities[i - 14];
        assert c[..8] != "sensor1_" by {
          assert c[6] != "sensor1_"[6];
        }
      }
    }
  }
}
