/** The SD-card driver: card detection, mount and unmount with their failure
    paths, the availability flag the data logger polls, the free/total space
    queries and one iteration of the hot-plug detection task.

    GPIO levels and the results of the SPI, VFS and FATFS calls are inputs. */
module SdcardDriver {

  import opened Esp

  /** MOUNT_POINT. */
  const MountPoint: string := "/sdcard"

  /** The driver's statics: s_sdcard_available, whether s_card is non-NULL,
      and the is_sd_card_present flag the status bar reads. */
  datatype SdState = SdState(available: bool, mounted: bool, present: bool)

  /** Power-on state: C zero-initialises all three. */
  const Boot := SdState(false, false, false)

  /** What init_sdcard's calls return, in the order it makes them: the
      card-detect level, spi_bus_initialize, esp_vfs_fat_sdspi_mount, and
      whether the two probe files could be opened. */
  datatype InitEnv = InitEnv(cdLevel: int, busInit: EspErr, mount: EspErr, testFileOpened: bool, csvFileOpened: bool)

  /** check_card_detect: the pin is active low. */
  predicate CardDetected(cdLevel: int) {
    cdLevel == 0
  }

  /** init_sdcard as a transition on the driver state. */
  function InitStep(s: SdState, env: InitEnv): (r: (SdState, EspErr))
    ensures r.0.available <==> r.1 == Ok
    ensures r.0.present == CardDetected(env.cdLevel)
    ensures !CardDetected(env.cdLevel) ==> r.1 == NotFound && r.0.mounted == s.mounted
    ensures r.1 == Ok <==>
      CardDetected(env.cdLevel) && env.busInit == Ok && env.mount == Ok && env.testFileOpened && env.csvFileOpened
    ensures CardDetected(env.cdLevel) && env.busInit != Ok ==> r.1 == env.busInit
    ensures CardDetected(env.cdLevel) && env.busInit == Ok && env.mount != Ok ==> r.1 == env.mount
    ensures r.1 == Ok ==> r.0.mounted
  {
    var s := s.(present := CardDetected(env.cdLevel));
    if !CardDetected(env.cdLevel) then (s.(available := false), NotFound)
    else if env.busInit != Ok then (s.(available := false), env.busInit)
    else if env.mount != Ok then (s.(available := false), env.mount)
    else
      var s := s.(mounted := true);
      if !env.testFileOpened then (s.(available := false), Fail)
      else if !env.csvFileOpened then (s.(available := false), Fail)
      else (s.(available := true), Ok)
  }

  /** deinit_sdcard: unmount, then free the SPI bus. The flags are cleared
      only when both succeed. */
  function DeinitStep(s: SdState, unmount: EspErr, busFree: EspErr): (r: (SdState, EspErr))
    ensures !s.available ==> r == (s, Ok)
    ensures s.available ==> (r.1 == Ok <==> unmount == Ok && busFree == Ok)
    ensures s.available && unmount != Ok ==> r.1 == unmount
    ensures s.available && unmount == Ok && busFree != Ok ==> r.1 == busFree
    ensures s.available ==> (r.0.available <==> r.1 != Ok)
    ensures r.1 == Ok ==> !r.0.available && (s.available ==> !r.0.mounted)
    ensures r.0.present == s.present
  {
    if !s.available then (s, Ok)
    else if unmount != Ok then (s, unmount)
    else if busFree != Ok then (s, busFree)
    else (s.(available := false, mounted := false), Ok)
  }

  /** get_sdcard_mount_point: the mount point exactly when the card is usable. */
  function MountPointOf(s: SdState): (r: Option<string>)
    ensures r.Some? <==> s.available
    ensures r.Some? ==> r.value == MountPoint
  {
    if s.available then Some(MountPoint) else None
  }

  // ---------------------------------------------------------- space queries

  /** What f_getfree reports: its status, the free-cluster count, the FAT
      entry count and the sectors per cluster. */
  datatype FsInfo = FsInfo(status: EspErr, freeClusters: uint32, fatEntries: uint32, clusterSectors: uint32)

  /** DWORD multiplication. */
  function Mul32(a: uint32, b: uint32): (r: uint32)
    ensures a * b < 0x1_0000_0000 ==> r == a * b
  {
    var p: nat := a * b;
    p % 0x1_0000_0000
  }

  /** get_sdcard_free_space as written: the sector and byte counts are both
      computed in 32-bit DWORD arithmetic and wrap. */
  function FreeSpaceAsWritten(s: SdState, info: FsInfo): (r: uint32)
    ensures !s.available || !s.mounted || info.status != Ok ==> r == 0
    ensures info.freeClusters * info.clusterSectors * 512 < 0x1_0000_0000 && s.available && s.mounted && info.status == Ok ==>
      r == info.freeClusters * info.clusterSectors * 512
  {
    if !s.available || !s.mounted || info.status != Ok then 0
    else Mul32(Mul32(info.freeClusters, info.clusterSectors), 512)
  }

  /** A card with 4 GiB free (131072 free clusters of 64 sectors) is
      reported as having no free space at all. */
  lemma FreeSpaceWrapsAt4GiB()
    ensures var info := FsInfo(Ok, 131072, 200000, 64);
      FreeSpaceAsWritten(SdState(true, true, true), info) == 0 &&
      FreeSpace(SdState(true, true, true), info) == 0x1_0000_0000
  {
  }

  /** get_sdcard_free_space as intended: the free byte count, computed
      without wrapping. */
  function FreeSpace(s: SdState, info: FsInfo): (r: nat)
    ensures !s.available || !s.mounted || info.status != Ok ==> r == 0
    ensures s.available && s.mounted && info.status == Ok ==>
      r == info.freeClusters * info.clusterSectors * 512
  {
    if !s.available || !s.mounted || info.status != Ok then 0
    else info.freeClusters * info.clusterSectors * 512
  }

  /** get_sdcard_total_space as written: (n_fatent - 2) * csize * 512 in DWORD. */
  function TotalSpaceAsWritten(s: SdState, info: FsInfo): (r: uint32)
    ensures !s.available || !s.mounted || info.status != Ok ==> r == 0
    ensures s.available && s.mounted && info.status == Ok && info.fatEntries >= 2 &&
            (info.fatEntries - 2) * info.clusterSectors * 512 < 0x1_0000_0000 ==>
              r == (info.fatEntries - 2) * info.clusterSectors * 512
  {
    if !s.available || !s.mounted || info.status != Ok then 0
    else Mul32(Mul32(Sub32(info.fatEntries, 2), info.clusterSectors), 512)
  }

  /** A 32 GiB card is reported as 0 bytes. */
  lemma TotalSpaceWrapsAt32GiB()
    ensures var info := FsInfo(Ok, 0, 1048578, 64);
      TotalSpaceAsWritten(SdState(true, true, true), info) == 0 &&
      TotalSpace(SdState(true, true, true), info) == 0x8_0000_0000
  {
  }

  /** get_sdcard_total_space as intended: the data-area size in bytes. */
  function TotalSpace(s: SdState, info: FsInfo): (r: nat)
    ensures !s.available || !s.mounted || info.status != Ok ==> r == 0
    ensures s.available && s.mounted && info.status == Ok && info.fatEntries >= 2 ==>
      r == (info.fatEntries - 2) * info.clusterSectors * 512
  {
    if !s.available || !s.mounted || info.status != Ok then 0
    else Sub32(info.fatEntries, 2) * info.clusterSectors * 512
  }

  /** Reducing modulo 2^32 before a multiplication gives the same residue
      as reducing after it. */
  lemma MulMod32(x: nat, c: nat)
    ensures (x % 0x1_0000_0000) * c % 0x1_0000_0000 == x * c % 0x1_0000_0000
  {
    var m := 0x1_0000_0000;
    var q, r := x / m, x % m;
    assert x * c == (q * c) * m + r * c;
    ModAddMultiple(r * c, q * c);
  }

  lemma ModAddMultiple(a: nat, k: nat)
    ensures (k * 0x1_0000_0000 + a) % 0x1_0000_0000 == a % 0x1_0000_0000
  {
  }

  /** The values the code returns are the intended byte counts reduced
      modulo 2^32: they agree exactly when the count fits in a DWORD. */
  lemma AsWrittenIsModulo(s: SdState, info: FsInfo)
    ensures FreeSpaceAsWritten(s, info) == FreeSpace(s, info) % 0x1_0000_0000
    ensures info.fatEntries >= 2 ==> TotalSpaceAsWritten(s, info) == TotalSpace(s, info) % 0x1_0000_0000
  {
    if s.available && s.mounted && info.status == Ok {
      MulMod32(info.freeClusters * info.clusterSectors, 512);
      if info.fatEntries >= 2 {
        MulMod32((info.fatEntries - 2) * info.clusterSectors, 512);
      }
    }
  }

  // ------------------------------------------------------- hot-plug task

  /** The inputs one iteration of sdcard_detection_task sees: its own
      card-detect sample, and the results the init or deinit it may call
      would get. */
  datatype DetectInput = DetectInput(cdLevel: int, init: InitEnv, unmount: EspErr, busFree: EspErr)

  /** One iteration of sdcard_detection_task on (driver state, last_card_state).
      Only an edge of the sampled card state triggers anything; the sampled
      state is remembered whatever the mount or unmount achieved. */
  function DetectionStep(s: SdState, last: bool, i: DetectInput): (r: (SdState, bool))
    ensures r.1 == CardDetected(i.cdLevel)
    ensures CardDetected(i.cdLevel) == last ==> r.0 == s.(present := last)
    ensures CardDetected(i.cdLevel) && !last && !s.available ==> r.0 == InitStep(s.(present := true), i.init).0
    ensures !CardDetected(i.cdLevel) && last && s.available ==> r.0 == DeinitStep(s.(present := false), i.unmount, i.busFree).0
    ensures CardDetected(i.cdLevel) != last && CardDetected(i.cdLevel) == s.available ==> r.0 == s.(present := CardDetected(i.cdLevel))
  {
    var current := CardDetected(i.cdLevel);
    var s := s.(present := current);
    if current == last then (s, last)
    else if current && !s.available then (InitStep(s, i.init).0, current)
    else if !current && s.available then (DeinitStep(s, i.unmount, i.busFree).0, current)
    else (s, current)
  }

  /** Iterations of the detection task, in order. */
  function Detect(s: SdState, last: bool, inputs: seq<DetectInput>): (SdState, bool)
    decreases |inputs|
  {
    if inputs == [] then (s, last)
    else
      var next := DetectionStep(s, last, inputs[0]);
      Detect(next.0, next.1, inputs[1..])
  }

  /** A mount that failed is not retried while the card stays in: without a
      falling edge, no number of iterations makes the card available. */
  lemma {:induction false} NoRetryWithoutEdge(s: SdState, inputs: seq<DetectInput>)
    requires !s.available
    requires forall k :: 0 <= k < |inputs| ==> CardDetected(inputs[k].cdLevel)
    ensures var r := Detect(s, true, inputs); !r.0.available && r.0.mounted == s.mounted && r.1
    decreases |inputs|
  {
    if inputs != [] {
      var next := DetectionStep(s, true, inputs[0]);
      assert next == (s.(present := true), true);
      NoRetryWithoutEdge(next.0, inputs[1..]);
    }
  }

  /** Removing the card and inserting it again does retry the mount: after
      the rising edge the card is available exactly when the new init
      succeeded. */
  lemma ReinsertRetries(s: SdState, out: DetectInput, back: DetectInput)
    requires !s.available && !CardDetected(out.cdLevel) && CardDetected(back.cdLevel)
    ensures var r := Detect(s, true, [out, back]);
      r.1 && (r.0.available <==> InitStep(s.(present := true), back.init).1 == Ok)
  {
    var first := DetectionStep(s, true, out);
    assert first == (s.(present := false), false);
    assert [out, back][1..] == [back];
    assert Detect(first.0, first.1, [back]) == DetectionStep(first.0, first.1, back);
  }

  // ----------------------------------------------------------- the driver

  /** The driver's statics as a mutable object. */
  class Sdcard {
    var available: bool
    var mounted: bool
    var present: bool

    function State(): SdState
      reads this
    {
      SdState(available, mounted, present)
    }

    constructor ()
      ensures State() == Boot
    {
      available, mounted, present := false, false, false;
    }

    /** check_card_detect: samples the pin and mirrors the result. */
    method CheckCardDetect(cdLevel: int) returns (detected: bool)
      modifies this`present
      ensures detected == CardDetected(cdLevel) && present == detected
    {
      present := cdLevel == 0;
      detected := cdLevel == 0;
    }

    /** init_sdcard. */
    method InitSdcard(env: InitEnv) returns (ret: EspErr)
      modifies this
      ensures (State(), ret) == InitStep(old(State()), env)
    {
      var detected := CheckCardDetect(env.cdLevel);
      if !detected {
        available := false;
        return NotFound;
      }
      if env.busInit != Ok {
        available := false;
        return env.busInit;
      }
      if env.mount != Ok {
        available := false;
        return env.mount;
      }
      mounted := true;
      if !env.testFileOpened {
        available := false;
        return Fail;
      }
      if !env.csvFileOpened {
        available := false;
        return Fail;
      }
      available := true;
      ret := Ok;
    }

    /** deinit_sdcard. */
    method DeinitSdcard(unmount: EspErr, busFree: EspErr) returns (ret: EspErr)
      modifies this
      ensures (State(), ret) == DeinitStep(old(State()), unmount, busFree)
    {
      if !available {
        return Ok;
      }
      if unmount != Ok {
        return unmount;
      }
      if busFree != Ok {
        return busFree;
      }
      available := false;
      mounted := false;
      ret := Ok;
    }

    /** is_sdcard_available: also copies the flag into is_sd_card_present. */
    method IsSdcardAvailable() returns (b: bool)
      modifies this`present
      ensures b == available && present == available
    {
      present := available;
      b := available;
    }

    /** get_sdcard_mount_point. */
    function GetSdcardMountPoint(): Option<string>
      reads this
    {
      MountPointOf(State())
    }

    /** get_sdcard_free_space, with the byte count computed without wrapping. */
    method GetSdcardFreeSpace(info: FsInfo) returns (bytes: nat)
      ensures bytes == FreeSpace(State(), info)
    {
      if !available || !mounted {
        return 0;
      }
      if info.status != Ok {
        return 0;
      }
      bytes := info.freeClusters * info.clusterSectors * 512;
    }

    /** get_sdcard_total_space, with the byte count computed without wrapping. */
    method GetSdcardTotalSpace(info: FsInfo) returns (bytes: nat)
      ensures bytes == TotalSpace(State(), info)
    {
      if !available || !mounted {
        return 0;
      }
      if info.status != Ok {
        return 0;
      }
      var dataClusters := Sub32(info.fatEntries, 2);
      bytes := dataClusters * info.clusterSectors * 512;
    }
  }

  /** sdcard_detection_task's loop-carried state. */
  class DetectionTask {
    const sd: Sdcard
    var lastCardState: bool

    constructor (sd: Sdcard)
      ensures this.sd == sd && !lastCardState
    {
      this.sd := sd;
      lastCardState := false;
    }

    /** One iteration of the task's loop body. */
    method Step(i: DetectInput)
      modifies this, sd
      ensures (sd.State(), lastCardState) == DetectionStep(old(sd.State()), old(lastCardState), i)
    {
      var current := sd.CheckCardDetect(i.cdLevel);
      if current != lastCardState {
        if current && !sd.available {
          var _ := sd.InitSdcard(i.init);
        } else if !current && sd.available {
          var _ := sd.DeinitSdcard(i.unmount, i.busFree);
        }
        lastCardState := current;
      }
    }
  }
}
