/** The persisted configuration: the logging interval and the Wi-Fi
    credentials, held in one record (g_config) and stored in the
    "power_monitor" NVS namespace under three keys.

    NVS is an abstract key/value map; whether nvs_open, each nvs_set_* and
    nvs_commit succeed are inputs. Strings are the characters before the C
    terminator, so strlen is the sequence length. */
module ConfigManager {

  import opened Esp

  const DefaultLogIntervalMs: uint32 := 1000
  const DefaultWifiSsid := "Morties"
  const DefaultWifiPass := "RickAndRoll"
  /** Buffer sizes of wifi_ssid and wifi_password, terminator included. */
  const MaxSsidLen := 32
  const MaxPassLen := 64
  const MinLogIntervalMs := 100
  const MaxLogIntervalMs := 60000

  const KeyInterval := "log_interval"
  const KeySsid := "wifi_ssid"
  const KeyPass := "wifi_password"

  /** config_data_t. */
  datatype ConfigData = ConfigData(logIntervalMs: uint32, wifiSsid: string, wifiPassword: string)

  /** The static initialiser of g_config: default interval, empty strings. */
  const Initial := ConfigData(DefaultLogIntervalMs, "", "")

  /** Both strings fit their buffers with the terminator. */
  predicate Fits(c: ConfigData) {
    |c.wifiSsid| < MaxSsidLen && |c.wifiPassword| < MaxPassLen
  }

  /** What update_config accepts. */
  predicate Acceptable(c: ConfigData) {
    MinLogIntervalMs <= c.logIntervalMs <= MaxLogIntervalMs && Fits(c)
  }

  // ------------------------------------------------------------------ NVS

  /** A stored entry: a 4-byte blob holding a uint32, or a string. */
  datatype NvsValue = Blob32(word: uint32) | Str(text: string)

  type NvsStore = map<string, NvsValue>

  /** nvs_get_blob into a uint32: only a 4-byte blob under the key reads. */
  function GetBlob32(store: NvsStore, key: string): (r: Option<uint32>)
    ensures r.Some? <==> key in store && store[key].Blob32?
    ensures r.Some? ==> store[key] == Blob32(r.value)
  {
    if key in store && store[key].Blob32? then Some(store[key].word) else None
  }

  /** nvs_get_str into a buffer of `size` bytes: the string must be stored
      under the key and fit the buffer with its terminator. */
  function GetStr(store: NvsStore, key: string, size: nat): (r: Option<string>)
    ensures r.Some? <==> key in store && store[key].Str? && |store[key].text| < size
    ensures r.Some? ==> store[key] == Str(r.value) && |r.value| < size
  {
    if key in store && store[key].Str? && |store[key].text| < size then Some(store[key].text) else None
  }

  /** The results of the five NVS calls save_config makes. */
  datatype SaveIo = SaveIo(open: EspErr, setInterval: EspErr, setSsid: EspErr, setPass: EspErr, commit: EspErr)

  function AllOk(io: SaveIo): bool {
    io.open == Ok && io.setInterval == Ok && io.setSsid == Ok && io.setPass == Ok && io.commit == Ok
  }

  /** An nvs_set_* that succeeded stores its entry; a failed one leaves the
      key as it was. */
  function SetIf(store: NvsStore, key: string, v: NvsValue, res: EspErr): (r: NvsStore)
    ensures res == Ok ==> key in r && r[key] == v
    ensures res != Ok ==> r == store
    ensures forall k :: k != key ==> (k in r <==> k in store)
    ensures forall k :: k != key && k in store ==> r[k] == store[k]
  {
    if res == Ok then store[key := v] else store
  }

  // ---------------------------------------------------------- operations

  /** load_config: an NVS namespace that cannot be opened resets both
      credentials to their defaults and keeps the interval; otherwise each
      key that does not read falls back to its own default. Always ESP_OK. */
  function Loaded(c: ConfigData, open: EspErr, store: NvsStore): (r: ConfigData)
    ensures open != Ok ==>
      r.logIntervalMs == c.logIntervalMs && r.wifiSsid == DefaultWifiSsid && r.wifiPassword == DefaultWifiPass
    ensures open == Ok ==>
      (!(KeyInterval in store && store[KeyInterval].Blob32?) ==> r.logIntervalMs == DefaultLogIntervalMs) &&
      (!(KeySsid in store && store[KeySsid].Str? && |store[KeySsid].text| < MaxSsidLen) ==> r.wifiSsid == DefaultWifiSsid) &&
      (!(KeyPass in store && store[KeyPass].Str? && |store[KeyPass].text| < MaxPassLen) ==> r.wifiPassword == DefaultWifiPass)
    ensures open == Ok ==>
      (KeyInterval in store && store[KeyInterval].Blob32? ==> r.logIntervalMs == store[KeyInterval].word) &&
      (KeySsid in store && store[KeySsid].Str? && |store[KeySsid].text| < MaxSsidLen ==> r.wifiSsid == store[KeySsid].text) &&
      (KeyPass in store && store[KeyPass].Str? && |store[KeyPass].text| < MaxPassLen ==> r.wifiPassword == store[KeyPass].text)
    ensures Fits(r)
  {
    if open != Ok then
      c.(wifiSsid := DefaultWifiSsid, wifiPassword := DefaultWifiPass)
    else
      var interval := GetBlob32(store, KeyInterval);
      var ssid := GetStr(store, KeySsid, MaxSsidLen);
      var pass := GetStr(store, KeyPass, MaxPassLen);
      ConfigData(if interval.Some? then interval.value else DefaultLogIntervalMs,
                 if ssid.Some? then ssid.value else DefaultWifiSsid,
                 if pass.Some? then pass.value else DefaultWifiPass)
  }

  /** save_config: write the three keys, commit, and report only the commit
      (or the failed open); a failed nvs_set_* is logged and forgotten. */
  function Saved(store: NvsStore, c: ConfigData, io: SaveIo): (r: (NvsStore, EspErr))
    ensures io.open != Ok ==> r == (store, io.open)
    ensures io.open == Ok ==> r.1 == io.commit
    ensures io.open == Ok && io.setInterval == Ok ==> KeyInterval in r.0 && r.0[KeyInterval] == Blob32(c.logIntervalMs)
    ensures io.open == Ok && io.setSsid == Ok ==> KeySsid in r.0 && r.0[KeySsid] == Str(c.wifiSsid)
    ensures io.open == Ok && io.setPass == Ok ==> KeyPass in r.0 && r.0[KeyPass] == Str(c.wifiPassword)
    ensures io.open == Ok && io.setInterval != Ok ==>
      (KeyInterval in r.0 <==> KeyInterval in store) && (KeyInterval in store ==> r.0[KeyInterval] == store[KeyInterval])
    ensures io.open == Ok && io.setSsid != Ok ==>
      (KeySsid in r.0 <==> KeySsid in store) && (KeySsid in store ==> r.0[KeySsid] == store[KeySsid])
    ensures io.open == Ok && io.setPass != Ok ==>
      (KeyPass in r.0 <==> KeyPass in store) && (KeyPass in store ==> r.0[KeyPass] == store[KeyPass])
    ensures forall k :: k != KeyInterval && k != KeySsid && k != KeyPass ==>
      (k in r.0 <==> k in store) && (k in store ==> r.0[k] == store[k])
  {
    if io.open != Ok then (store, io.open)
    else
      var s1 := SetIf(store, KeyInterval, Blob32(c.logIntervalMs), io.setInterval);
      var s2 := SetIf(s1, KeySsid, Str(c.wifiSsid), io.setSsid);
      var s3 := SetIf(s2, KeyPass, Str(c.wifiPassword), io.setPass);
      (s3, io.commit)
  }

  /** set_log_interval: only 100..60000 ms is stored. */
  function WithInterval(c: ConfigData, intervalMs: uint32): (r: (ConfigData, EspErr))
    ensures r.1 == Ok <==> MinLogIntervalMs <= intervalMs <= MaxLogIntervalMs
    ensures r.1 != Ok ==> r == (c, InvalidArg)
    ensures r.1 == Ok ==> r.0.logIntervalMs == intervalMs
    ensures r.0.wifiSsid == c.wifiSsid && r.0.wifiPassword == c.wifiPassword
  {
    if intervalMs < MinLogIntervalMs || intervalMs > MaxLogIntervalMs then (c, InvalidArg)
    else (c.(logIntervalMs := intervalMs), Ok)
  }

  /** set_wifi_credentials: a missing (NULL) argument or a string that does
      not fit its buffer is refused before either field is copied. */
  function WithCredentials(c: ConfigData, ssid: Option<string>, password: Option<string>): (r: (ConfigData, EspErr))
    ensures r.1 == Ok <==>
      ssid.Some? && password.Some? && |ssid.value| < MaxSsidLen && |password.value| < MaxPassLen
    ensures r.1 != Ok ==> r == (c, InvalidArg)
    ensures r.1 == Ok ==> r.0.wifiSsid == ssid.value && r.0.wifiPassword == password.value
    ensures r.0.logIntervalMs == c.logIntervalMs
    ensures Fits(c) ==> Fits(r.0)
  {
    if ssid.None? || password.None? then (c, InvalidArg)
    else if |ssid.value| >= MaxSsidLen then (c, InvalidArg)
    else if |password.value| >= MaxPassLen then (c, InvalidArg)
    else (c.(wifiSsid := ssid.value, wifiPassword := password.value), Ok)
  }

  /** update_config: validate everything first, then overwrite all three
      fields and save. A failed save is reported but not rolled back. */
  function Updated(c: ConfigData, store: NvsStore, n: Option<ConfigData>, io: SaveIo): (r: (ConfigData, NvsStore, EspErr))
    ensures n.None? || !Acceptable(n.value) ==> r == (c, store, InvalidArg)
    ensures n.Some? && Acceptable(n.value) ==>
      r.0 == n.value && (r.1, r.2) == Saved(store, n.value, io)
    ensures r.2 == Ok ==> n.Some? && Acceptable(n.value)
  {
    if n.None? then (c, store, InvalidArg)
    else if n.value.logIntervalMs < MinLogIntervalMs || n.value.logIntervalMs > MaxLogIntervalMs then (c, store, InvalidArg)
    else if |n.value.wifiSsid| >= MaxSsidLen then (c, store, InvalidArg)
    else if |n.value.wifiPassword| >= MaxPassLen then (c, store, InvalidArg)
    else
      var saved := Saved(store, n.value, io);
      (n.value, saved.0, saved.1)
  }

  // --------------------------------------------------------------- lemmas

  /** A configuration that fits its buffers survives a fully successful
      save followed by a load, whatever was in memory before the load. */
  lemma SaveThenLoad(c: ConfigData, store: NvsStore, io: SaveIo, before: ConfigData)
    requires Fits(c) && AllOk(io)
    ensures Loaded(before, Ok, Saved(store, c, io).0) == c
  {
    var s := Saved(store, c, io).0;
    assert GetBlob32(s, KeyInterval) == Some(c.logIntervalMs);
    assert GetStr(s, KeySsid, MaxSsidLen) == Some(c.wifiSsid);
    assert GetStr(s, KeyPass, MaxPassLen) == Some(c.wifiPassword);
  }

  /** Each field load_config produces depends only on its own key. */
  lemma LoadPerKey(c: ConfigData, s1: NvsStore, s2: NvsStore)
    ensures (KeyInterval in s1 <==> KeyInterval in s2) && (KeyInterval in s1 ==> s1[KeyInterval] == s2[KeyInterval]) ==>
      Loaded(c, Ok, s1).logIntervalMs == Loaded(c, Ok, s2).logIntervalMs
    ensures (KeySsid in s1 <==> KeySsid in s2) && (KeySsid in s1 ==> s1[KeySsid] == s2[KeySsid]) ==>
      Loaded(c, Ok, s1).wifiSsid == Loaded(c, Ok, s2).wifiSsid
    ensures (KeyPass in s1 <==> KeyPass in s2) && (KeyPass in s1 ==> s1[KeyPass] == s2[KeyPass]) ==>
      Loaded(c, Ok, s1).wifiPassword == Loaded(c, Ok, s2).wifiPassword
  {
  }

  /** Failed nvs_set_* calls do not change what save_config reports. */
  lemma SaveReportsCommitOnly(store: NvsStore, c: ConfigData, io: SaveIo, a: EspErr, b: EspErr, d: EspErr)
    ensures Saved(store, c, io).1 == Saved(store, c, io.(setInterval := a, setSsid := b, setPass := d)).1
  {
  }

  /** An accepted update changes the configuration even when saving it
      fails: there is no rollback. */
  lemma UpdateWithoutRollback(c: ConfigData, store: NvsStore, n: ConfigData, io: SaveIo)
    requires Acceptable(n) && io.commit != Ok
    ensures Updated(c, store, Some(n), io).0 == n
    ensures Updated(c, store, Some(n), io).2 != Ok
  {
  }

  /** An update that saves cleanly is what the next boot loads. */
  lemma UpdateThenReboot(c: ConfigData, store: NvsStore, n: ConfigData, io: SaveIo)
    requires Acceptable(n) && AllOk(io)
    ensures Updated(c, store, Some(n), io).2 == Ok
    ensures Loaded(Initial, Ok, Updated(c, store, Some(n), io).1) == n
  {
    SaveThenLoad(n, store, io, Initial);
  }

  /** The buffers never overflow: every operation keeps both strings short
      enough, starting from the static initialiser. */
  lemma OperationsKeepFits(c: ConfigData, store: NvsStore, open: EspErr, v: uint32,
                           ssid: Option<string>, password: Option<string>, n: Option<ConfigData>, io: SaveIo)
    requires Fits(c)
    ensures Fits(Initial)
    ensures Fits(Loaded(c, open, store))
    ensures Fits(WithInterval(c, v).0)
    ensures Fits(WithCredentials(c, ssid, password).0)
    ensures Fits(Updated(c, store, n, io).0)
  {
  }

  // ---------------------------------------------------------------- g_config

  /** g_config together with the NVS partition it is saved to. */
  class ConfigStore {
    var config: ConfigData
    var nvs: NvsStore

    predicate Valid()
      reads this
    {
      Fits(config)
    }

    constructor (nvs: NvsStore)
      ensures Valid() && config == Initial && this.nvs == nvs
    {
      config := Initial;
      this.nvs := nvs;
    }

    /** load_config. */
    method LoadConfig(open: EspErr) returns (ret: EspErr)
      modifies this`config
      ensures Valid()
      ensures config == Loaded(old(config), open, nvs) && ret == Ok
    {
      ret := Ok;
      if open != Ok {
        config := config.(wifiSsid := DefaultWifiSsid);
        config := config.(wifiPassword := DefaultWifiPass);
        return;
      }
      var interval := GetBlob32(nvs, KeyInterval);
      if interval.None? {
        config := config.(logIntervalMs := DefaultLogIntervalMs);
      } else {
        config := config.(logIntervalMs := interval.value);
      }
      var ssid := GetStr(nvs, KeySsid, MaxSsidLen);
      if ssid.None? {
        config := config.(wifiSsid := DefaultWifiSsid);
      } else {
        config := config.(wifiSsid := ssid.value);
      }
      var pass := GetStr(nvs, KeyPass, MaxPassLen);
      if pass.None? {
        config := config.(wifiPassword := DefaultWifiPass);
      } else {
        config := config.(wifiPassword := pass.value);
      }
    }

    /** save_config. */
    method SaveConfig(io: SaveIo) returns (ret: EspErr)
      modifies this`nvs
      ensures (nvs, ret) == Saved(old(nvs), config, io)
    {
      if io.open != Ok {
        return io.open;
      }
      nvs := SetIf(nvs, KeyInterval, Blob32(config.logIntervalMs), io.setInterval);
      nvs := SetIf(nvs, KeySsid, Str(config.wifiSsid), io.setSsid);
      nvs := SetIf(nvs, KeyPass, Str(config.wifiPassword), io.setPass);
      ret := io.commit;
    }

    /** get_config: the one record every caller reads. */
    function GetConfig(): (c: ConfigData)
      reads this
      ensures Valid() ==> |c.wifiSsid| < MaxSsidLen && |c.wifiPassword| < MaxPassLen
    {
      config
    }

    /** set_log_interval. */
    method SetLogInterval(intervalMs: uint32) returns (ret: EspErr)
      requires Valid()
      modifies this`config
      ensures Valid()
      ensures (config, ret) == WithInterval(old(config), intervalMs)
    {
      if intervalMs < MinLogIntervalMs || intervalMs > MaxLogIntervalMs {
        return InvalidArg;
      }
      config := config.(logIntervalMs := intervalMs);
      ret := Ok;
    }

    /** set_wifi_credentials. */
    method SetWifiCredentials(ssid: Option<string>, password: Option<string>) returns (ret: EspErr)
      requires Valid()
      modifies this`config
      ensures Valid()
      ensures (config, ret) == WithCredentials(old(config), ssid, password)
    {
      if ssid.None? || password.None? {
        return InvalidArg;
      }
      if |ssid.value| >= MaxSsidLen {
        return InvalidArg;
      }
      if |password.value| >= MaxPassLen {
        return InvalidArg;
      }
      config := config.(wifiSsid := ssid.value);
      config := config.(wifiPassword := password.value);
      ret := Ok;
    }

    /** update_config. */
    method UpdateConfig(n: Option<ConfigData>, io: SaveIo) returns (ret: EspErr)
      requires Valid()
      modifies this
      ensures Valid()
      ensures (config, nvs, ret) == Updated(old(config), old(nvs), n, io)
    {
      if n.None? {
        return InvalidArg;
      }
      var c := n.value;
      if c.logIntervalMs < MinLogIntervalMs || c.logIntervalMs > MaxLogIntervalMs {
        return InvalidArg;
      }
      if |c.wifiSsid| >= MaxSsidLen {
        return InvalidArg;
      }
      if |c.wifiPassword| >= MaxPassLen {
        return InvalidArg;
      }
      config := config.(logIntervalMs := c.logIntervalMs);
      config := config.(wifiSsid := c.wifiSsid);
      config := config.(wifiPassword := c.wifiPassword);
      ret := SaveConfig(io);
    }
  }
}
