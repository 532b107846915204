/**
 * `DataProcessor`: the latest revision of the collector. It probes for root
 * access, discovers zones and cores once, writes the header, and on every tick
 * appends one nine-field record.
 */
module DataProcessing {
  import opened Wrappers
  import opened Text
  import opened Sysfs
  import opened Csv
  import opened Telemetry

  class DataProcessor {
    const isRooted: bool
    const rootAccess: string
    const performanceFilePath: string
    const thermalZonePaths: seq<string>
    const cpuDevicePaths: seq<string>
    const thermalZoneTypeHeaders: string
    const fs: FileSystem

    function Rev(): Revision {
      DataProcessorRev(isRooted)
    }

    /** Every record in the file reads back as the nine header columns. */
    predicate FileAligned()
      reads fs
    {
      Aligned(fs.Records(performanceFilePath), 9)
    }

    /**
     * The constructor: `su` starts or not, the path is built from the folder and the
     * time of day, discovery runs, the headers text is built and the file is created
     * holding only the header.
     */
    constructor (suStarts: bool, currentFolder: string, series: string, sh: Shell, fs: FileSystem)
      modifies fs
      ensures isRooted == suStarts && rootAccess == RootAccess(suStarts)
      ensures performanceFilePath == PerformanceFile(currentFolder, series)
      ensures thermalZonePaths == DiscoveredZones(DataProcessorRev(suStarts), sh)
      ensures cpuDevicePaths == DiscoveredCores(DataProcessorRev(suStarts), sh)
      ensures thermalZoneTypeHeaders == TypeHeaders(Interest)
      ensures this.fs == fs
      ensures fs.files == (if fs.Opens(performanceFilePath)
        then old(fs.files)[performanceFilePath := [DataProcessorHeader(TypeHeaders(Interest))]]
        else old(fs.files))
      ensures fs.Opens(performanceFilePath) ==> FileAligned()
    {
      var rev := DataProcessorRev(suStarts);
      var path := PerformanceFile(currentFolder, series);
      var zones := GetThermalZoneFilePaths(rev, sh, ThermalDir);
      var cores := GetCPUDeviceFiles(rev, sh, CpuDir);
      var headers := BuildTypeHeaders(Interest);
      var header := DataProcessorHeader(headers);
      HeaderWidth();
      assert Aligned([header], 9);
      var _ := fs.Create(path, header);
      isRooted := suStarts;
      rootAccess := RootAccess(suStarts);
      performanceFilePath := path;
      thermalZonePaths := zones;
      cpuDevicePaths := cores;
      thermalZoneTypeHeaders := headers;
      this.fs := fs;
    }

    /** The status a cycle reports: the activity's, from Android Q on, otherwise "Unknown". */
    function Status(sdkAtLeastQ: bool, activityStatus: Cell): Cell {
      if sdkAtLeastQ then activityStatus else "Unknown"
    }

    /** What one cycle appends: a record, nothing (`None`), or the parse error that ends it. */
    function Outcome(sh: Shell, sdkAtLeastQ: bool, activityStatus: Cell, time: Cell, show: real -> Cell)
      : Result<Option<string>, Error>
    {
      CycleRecord(Rev(), DeviceProbes(Rev(), sh), thermalZonePaths, cpuDevicePaths,
        Status(sdkAtLeastQ, activityStatus), thermalZoneTypeHeaders, time, show)
    }

    /**
     * `processDataCollection`: the thermal, frequency and utilisation lists, then
     * one append. Every record it appends has the header's nine fields, so a file
     * that started aligned stays aligned.
     */
    method ProcessDataCollection(sh: Shell, sdkAtLeastQ: bool, activityStatus: Cell, time: Cell, show: real -> Cell)
      returns (r: Result<Option<string>, Error>)
      requires thermalZoneTypeHeaders == TypeHeaders(Interest)
      modifies fs
      ensures r == Outcome(sh, sdkAtLeastQ, activityStatus, time, show)
      ensures r.Ok? ==> r.value.Some? && FieldCount(r.value.value) == 9
      ensures fs.files == (if r.Err? || !fs.Opens(performanceFilePath) then old(fs.files)
        else old(fs.files)[performanceFilePath := old(fs.Records(performanceFilePath)) + [r.value.value]])
      ensures old(FileAligned()) ==> FileAligned()
    {
      var p := DeviceProbes(Rev(), sh);
      var status := Status(sdkAtLeastQ, activityStatus);
      r := BuildRecord(Rev(), p, thermalZonePaths, cpuDevicePaths, status, thermalZoneTypeHeaders, time, show);
      if r.Err? {
        return;
      }
      var record := r.value;
      CycleWidth(Rev(), p, thermalZonePaths, cpuDevicePaths, status, thermalZoneTypeHeaders, time, show);
      ghost var before := fs.Records(performanceFilePath);
      var written := fs.Append(performanceFilePath, record);
      if written && Aligned(before, 9) {
        AlignedAppend(before, record.value, 9);
      }
    }
  }
}
