/**
 * `MainActivity` of the older revision: it discovers zones and cores, writes the
 * header, hands the file to a `PFManager` from Android Q on, and on every tick
 * appends one nine-field record whose status is the listener's.
 */
module Activity {
  import opened Wrappers
  import opened Text
  import opened Sysfs
  import opened Csv
  import opened Telemetry
  import opened PerformanceFramework

  class MainActivity {
    const thermalZonePaths: seq<string>
    const cpuDevicePaths: seq<string>
    /** The app's external files folder. */
    const currentFolder: string
    /** The time of day the file was created, `HH:mm:ss`. */
    const fileSeries: string
    const sdkAtLeastQ: bool
    var currentThermalStatus: Cell
    const pfManager: PFManager?
    const fs: FileSystem

    function Path(): string {
      PerformanceFile(currentFolder, fileSeries)
    }

    /** From Android Q on there is a listener, and it writes to the same storage. */
    predicate Valid()
      reads this
    {
      sdkAtLeastQ ==> pfManager != null && pfManager.fs == fs
    }

    /** Every record in the file reads back as the nine header columns. */
    predicate FileAligned()
      reads fs
    {
      Aligned(fs.Records(Path()), 9)
    }

    /**
     * `onCreate`: discovery, the header written field by field, and from Android Q
     * on a listener that is given the file's path.
     */
    constructor (sh: Shell, currentFolder: string, series: string, sdkAtLeastQ: bool, fs: FileSystem)
      modifies fs
      ensures currentThermalStatus == "Unknown"
      ensures thermalZonePaths == DiscoveredZones(MainActivityRev, sh)
      ensures cpuDevicePaths == DiscoveredCores(MainActivityRev, sh)
      ensures this.currentFolder == currentFolder && fileSeries == series && this.sdkAtLeastQ == sdkAtLeastQ
      ensures this.fs == fs
      ensures fs.files == (if fs.Opens(Path()) then old(fs.files)[Path() := [MainActivityHeader()]] else old(fs.files))
      ensures fs.Opens(Path()) ==> FileAligned()
      ensures pfManager != null <==> sdkAtLeastQ
      ensures pfManager != null ==> (fresh(pfManager)
        && pfManager.performanceFilePath == Path() && pfManager.currentThermalStatus == "None"
        && pfManager.thermalZonePaths == DiscoveredZones(PFManagerRev, sh)
        && pfManager.cpuDevicePaths == DiscoveredCores(PFManagerRev, sh))
      ensures Valid()
    {
      var zones := GetThermalZoneFilePaths(MainActivityRev, sh, ThermalDir);
      var cores := GetCPUDeviceFiles(MainActivityRev, sh, CpuDir);
      var path := PerformanceFile(currentFolder, series);
      var header := MainActivityHeader();
      HeaderAligned(header);
      var _ := fs.Create(path, header);
      var manager: PFManager? := null;
      if sdkAtLeastQ {
        manager := NewListener(sh, fs, path);
      }
      thermalZonePaths := zones;
      cpuDevicePaths := cores;
      this.currentFolder := currentFolder;
      fileSeries := series;
      this.sdkAtLeastQ := sdkAtLeastQ;
      currentThermalStatus := "Unknown";
      pfManager := manager;
      this.fs := fs;
    }

    /** The listener created from Android Q on, already given the file's path. */
    static method NewListener(sh: Shell, fs: FileSystem, path: string) returns (m: PFManager)
      ensures fresh(m) && m.fs == fs
      ensures m.performanceFilePath == path && m.currentThermalStatus == "None"
      ensures m.thermalZonePaths == DiscoveredZones(PFManagerRev, sh)
      ensures m.cpuDevicePaths == DiscoveredCores(PFManagerRev, sh)
    {
      m := new PFManager(sh, fs);
      m.SetPerformanceFilePath(path);
    }

    static lemma HeaderAligned(header: string)
      requires header == MainActivityHeader()
      ensures Aligned([header], 9)
    {
      HeadersAgree();
    }

    /** What one cycle appends with the status it reports. */
    function Outcome(sh: Shell, status: Cell, time: Cell, show: real -> Cell): Result<Option<string>, Error>
    {
      CycleRecord(MainActivityRev, DeviceProbes(MainActivityRev, sh), thermalZonePaths, cpuDevicePaths,
        status, "", time, show)
    }

    /**
     * `processDataCollection`: from Android Q on, first copy the listener's status
     * (kept even when a reading then fails to parse); then the three lists and one
     * append of nine fields.
     */
    method ProcessDataCollection(sh: Shell, time: Cell, show: real -> Cell) returns (r: Result<Option<string>, Error>)
      requires Valid()
      modifies this, fs
      ensures currentThermalStatus
        == (if sdkAtLeastQ then old(pfManager.currentThermalStatus) else old(currentThermalStatus))
      ensures r == Outcome(sh, currentThermalStatus, time, show)
      ensures r.Ok? ==> r.value.Some? && FieldCount(r.value.value) == 9
      ensures fs.files == (if r.Err? || !fs.Opens(Path()) then old(fs.files)
        else old(fs.files)[Path() := old(fs.Records(Path())) + [r.value.value]])
      ensures old(FileAligned()) ==> FileAligned()
    {
      if sdkAtLeastQ {
        currentThermalStatus := pfManager.currentThermalStatus;
      }
      var p := DeviceProbes(MainActivityRev, sh);
      r := BuildRecord(MainActivityRev, p, thermalZonePaths, cpuDevicePaths, currentThermalStatus, "", time, show);
      if r.Err? {
        return;
      }
      var record := r.value;
      CycleWidth(MainActivityRev, p, thermalZonePaths, cpuDevicePaths, currentThermalStatus, "", time, show);
      ghost var before := fs.Records(Path());
      var written := fs.Append(Path(), record);
      if written && Aligned(before, 9) {
        AlignedAppend(before, record.value, 9);
      }
    }
  }
}
