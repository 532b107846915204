/**
 * `PFManager`: the thermal-status listener of the older revision. It keeps the
 * name of the last status the platform reported and, on every change, appends
 * one record (without utilisations) to the file whose path it was handed.
 */
module PerformanceFramework {
  import opened Wrappers
  import opened Text
  import opened Sysfs
  import opened Csv
  import opened Telemetry

  class PFManager {
    var performanceFilePath: string
    var currentThermalStatus: Cell
    const thermalZonePaths: seq<string>
    const cpuDevicePaths: seq<string>
    /** The storage shared with the activity that created the listener. */
    const fs: FileSystem

    /** The field initialisers: no path yet, status `None`, and both discoveries. */
    constructor (sh: Shell, fs: FileSystem)
      ensures performanceFilePath == "" && currentThermalStatus == "None"
      ensures thermalZonePaths == DiscoveredZones(PFManagerRev, sh)
      ensures cpuDevicePaths == DiscoveredCores(PFManagerRev, sh)
      ensures this.fs == fs
    {
      var zones := GetThermalZoneFilePaths(PFManagerRev, sh, ThermalDir);
      var cores := GetCPUDeviceFiles(PFManagerRev, sh, CpuDir);
      performanceFilePath := "";
      currentThermalStatus := "None";
      thermalZonePaths := zones;
      cpuDevicePaths := cores;
      this.fs := fs;
    }

    method SetPerformanceFilePath(filePath: string)
      modifies this
      ensures performanceFilePath == filePath
      ensures currentThermalStatus == old(currentThermalStatus)
    {
      performanceFilePath := filePath;
    }

    /** What one cycle would append now: a record of seven fields, or the parse error that ends it. */
    function Outcome(sh: Shell, time: Cell, show: real -> Cell): Result<Option<string>, Error>
      reads this
    {
      CycleRecord(PFManagerRev, DeviceProbes(PFManagerRev, sh), thermalZonePaths, cpuDevicePaths,
        currentThermalStatus, "", time, show)
    }

    /**
     * `processDataCollection`: read, lay out, append. A parse error ends the cycle
     * before the file is opened; an empty or unwritable path writes nothing.
     */
    method ProcessDataCollection(sh: Shell, time: Cell, show: real -> Cell) returns (r: Result<Option<string>, Error>)
      modifies fs
      ensures r == Outcome(sh, time, show)
      ensures r.Ok? ==> r.value.Some? && FieldCount(r.value.value) == 7
      ensures fs.files == (if r.Err? || !fs.Opens(performanceFilePath) then old(fs.files)
        else old(fs.files)[performanceFilePath := old(fs.Records(performanceFilePath)) + [r.value.value]])
    {
      var p := DeviceProbes(PFManagerRev, sh);
      r := BuildRecord(PFManagerRev, p, thermalZonePaths, cpuDevicePaths, currentThermalStatus, "", time, show);
      if r.Err? {
        return;
      }
      var record := r.value;
      CycleWidth(PFManagerRev, p, thermalZonePaths, cpuDevicePaths, currentThermalStatus, "", time, show);
      var _ := fs.Append(performanceFilePath, record);
    }

    /** `onThermalStatusChanged`: remember the status by name, then collect once. */
    method OnThermalStatusChanged(i: int, sh: Shell, time: Cell, show: real -> Cell)
      returns (r: Result<Option<string>, Error>)
      modifies this, fs
      ensures currentThermalStatus == ThermalStatusName(i)
      ensures performanceFilePath == old(performanceFilePath)
      ensures r == Outcome(sh, time, show)
      ensures fs.files == (if r.Err? || !fs.Opens(performanceFilePath) then old(fs.files)
        else old(fs.files)[performanceFilePath := old(fs.Records(performanceFilePath)) + [r.value.value]])
    {
      currentThermalStatus := ThermalStatusName(i);
      r := ProcessDataCollection(sh, time, show);
    }
  }
}
