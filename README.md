# Device performance telemetry collector

This project models the telemetry side of an Android image-classification
benchmark app. While TensorFlow Lite classifies camera frames, the app samples
the device every two seconds and appends one CSV record per sample:

- the thermal status the platform reports;
- the mean temperature of the CPU, GPU and NPU thermal zones;
- the mean CPU core frequency and the GPU frequency;
- the app's CPU share as `top` prints it, and the GPU utilisation.

The device is read through sysfs (`/sys/class/thermal`,
`/sys/devices/system/cpu`, the kgsl or mali GPU directories) and through `top`,
each by running a command and reading its output line by line.

The collector exists in three copies:

- `DataProcessor` is the latest. It probes for `su` and puts `su -c` in front
  of every sysfs command when the probe succeeds. It lower-cases zone types
  before matching them, and it builds the temperature header columns from the
  list of domains of interest.
- `MainActivity` is an older copy, folded into the activity.
- `PFManager` is an older thermal-status listener. On every status change it
  appends a seven-field record to the same file.

Beside the collector, the camera screen writes a throughput file. Every second
it appends the model, the delegate, the current throughput and the task period
of the classifier helper. The helper counts executions and execution time, and
it sleeps out whatever is left of the task period after each inference.

The modules are:

| module | file | models |
|---|---|---|
| `Text` | `text.dfy` | the Java string library the collector leans on: `contains`, `replace`, `replaceAll`, `split` (trailing empty strings dropped), `Integer.parseInt`, `Float.parseFloat` on plain decimals, `toLowerCase`, `Integer.toString` |
| `Sysfs` | `sysfs.dfy` | the commands each revision issues, zone and core discovery, and every single-file reader |
| `Csv` | `csv.dfy` | a record's text, reading it back as fields, and the app's external storage as a `FileSystem` class |
| `Telemetry` | `telemetry.dfy` | one cycle's three lists (thermal, frequency, utilisation), the record laid out from them, the headers, and the status names |
| `PerformanceFramework` | `pf_manager.dfy` | the `PFManager` class |
| `DataProcessing` | `data_processor.dfy` | the `DataProcessor` class |
| `Activity` | `main_activity.dfy` | the collector part of the older `MainActivity` class |
| `Classifier` | `classifier_helper.dfy` | the Kotlin `ImageClassifierHelperKotlin` class and its counters |
| `Camera` | `camera_fragment.dfy` | the `CameraFragment` controls and its throughput file |

The device is an oracle. A `Shell` maps each `Command` to the lines it prints;
an `Exec` is a command line that `Runtime.exec` splits into words, and a
`ShellScript` is a script passed to `sh -c`. The readers that one cycle uses
are packed into a `Probes` value, so the cycle logic is proved once for any
device.

A reading that fails to parse ends the cycle with `Err(NumberFormat)`.
Indexing an output that is too short gives `Err(IndexOutOfBounds)`. Both
leave the file untouched, as the uncaught exception does.

A record that cannot be laid out is `Ok(None)`. Here the
`IndexOutOfBoundsException` is caught, so the file is opened for appending but
nothing is written to it. A path the device will not open is modelled by
`FileSystem.Opens` being false. Such a path writes nothing, as
`FileNotFoundException` does.

Java `float` is modelled as `Num`, which is a `real` or `NaN`. NaN is the result
of `0f / 0` when a domain or the core list is empty. `Float.toString` is a
parameter `show`, on which nothing is assumed.

The time of day is a parameter `time`, and the clock the helper reads is a pair
of parameters `start` and `finish`.

## Model

| member | source | states |
|---|---|---|
| Text.CollapseSpaces | android_java/app/src/main/java/org/tensorflow/lite/examples/imageclassification/DataProcessor.java:389-391 | the `while (contains("  ")) replace("  ", " ")` loop ends with the line's space runs collapsed (`Squeeze`), and no double space is left |
| Text.SqueezeNoDouble | android_java/app/src/main/java/org/tensorflow/lite/examples/imageclassification/DataProcessor.java:389-391 | a collapsed line never contains two adjacent spaces |
| Text.SqueezeKeepsText | android_java/app/src/main/java/org/tensorflow/lite/examples/imageclassification/DataProcessor.java:389-391 | collapsing spaces keeps every non-space character, in order |
| Text.SqueezeReplace | android_java/app/src/main/java/org/tensorflow/lite/examples/imageclassification/DataProcessor.java:390 | one `replace("  ", " ")` pass leaves the collapsed form unchanged, which makes it the loop's invariant |
| Text.ReplaceShrinks | android_java/app/src/main/java/org/tensorflow/lite/examples/imageclassification/DataProcessor.java:389-391 | replacing a pattern with a shorter one never lengthens the line, and strictly shortens it while the pattern occurs (the loop terminates) |
| Text.SubstituteRemoves | android_java/app/src/main/java/org/tensorflow/lite/examples/imageclassification/DataProcessor.java:392 | after `replaceAll(" ", ",")` no space is left |
| Text.JavaSplitJoin | android_java/app/src/main/java/org/tensorflow/lite/examples/imageclassification/DataProcessor.java:396 | `split` undoes a join of separator-free pieces whose last piece is not empty |
| Text.JavaSplitPieces | android_java/app/src/main/java/org/tensorflow/lite/examples/imageclassification/DataProcessor.java:413 | no piece of a `split` contains the separator or any character absent from the input |
| Text.ParseInt32RoundTrip | android_java/app/src/main/java/org/tensorflow/lite/examples/imageclassification/DataProcessor.java:327 | `Integer.parseInt` reads back every 32-bit integer written by `Integer.toString` |
| Text.ParseInt32Rejects | android_java/app/src/main/java/org/tensorflow/lite/examples/imageclassification/DataProcessor.java:327 | a line with a non-digit anywhere but a leading sign throws NumberFormatException |
| Text.ParseFloatInteger | android_java/app/src/main/java/org/tensorflow/lite/examples/imageclassification/DataProcessor.java:360 | `Float.parseFloat` reads an integer written in decimal as that integer |
| Text.ParseFloat | android_java/app/src/main/java/org/tensorflow/lite/examples/imageclassification/DataProcessor.java:360 | a string `Float.parseFloat` cannot read raises NumberFormatException and nothing else |
| Text.ParseFloatNegated | android_java/app/src/main/java/org/tensorflow/lite/examples/imageclassification/DataProcessor.java:360 | a leading minus negates the parsed value |
| Text.ParseFloatTrailingBlank | android_java/app/src/main/java/org/tensorflow/lite/examples/imageclassification/DataProcessor.java:414-417 | trailing blanks do not change the parsed value, because `parseFloat` trims |
| Text.LowerKeepsMatch | android_java/app/src/main/java/org/tensorflow/lite/examples/imageclassification/DataProcessor.java:293-296 | lower-casing a zone type keeps every lower-case substring it contained |
| Sysfs.FirstLine | android_java/app/src/main/java/org/tensorflow/lite/examples/imageclassification/DataProcessor.java:313-317 | `readLine` yields nothing exactly when the command printed nothing |
| Sysfs.DomainNameInjective | android_java/app/src/main/java/org/tensorflow/lite/examples/imageclassification/DataProcessor.java:28 | the domain names `cpu`, `gpu`, `npu`, `tpu` are told apart by their first letter |
| Sysfs.SysfsCommandsPrefixed | android_java/app/src/main/java/org/tensorflow/lite/examples/imageclassification/DataProcessor.java:284 | every `cat` and `ls` command of the latest revision starts with the root-access prefix and a space, while `top` is never prefixed |
| Sysfs.EntryPathInjective | android_java/app/src/main/java/org/tensorflow/lite/examples/imageclassification/DataProcessor.java:292 | different listed names give different zone paths |
| Sysfs.GetThermalZoneFilePaths | android_java/app/src/main/java/org/tensorflow/lite/examples/imageclassification/DataProcessor.java:281-306 | the loop over the listed names returns `ZonePaths` of the listing under the revision's filter |
| Sysfs.ZoneKept | android_java/app/src/main/java/org/tensorflow/lite/examples/imageclassification/DataProcessor.java:293-300 | one zone is kept exactly when its type (lower-cased in the latest revision) contains `cpu`, `gpu` or `npu` |
| Sysfs.NamesInterest | android_java/app/src/main/java/org/tensorflow/lite/examples/imageclassification/DataProcessor.java:295-300 | the inner loop with `break` finds a domain of interest exactly when one occurs in the type |
| Sysfs.ZonePathsMembers | android_java/app/src/main/java/org/tensorflow/lite/examples/imageclassification/DataProcessor.java:291-301 | a path is discovered if and only if some listed name yields it and passes the filter |
| Sysfs.ZonePathsCount | android_java/app/src/main/java/org/tensorflow/lite/examples/imageclassification/DataProcessor.java:291-301 | each kept name yields its path exactly as often as it is listed, and a dropped name yields it never |
| Sysfs.ZonePathsBound | android_java/app/src/main/java/org/tensorflow/lite/examples/imageclassification/DataProcessor.java:291-301 | discovery never returns more paths than names were listed |
| Sysfs.DefaultTypeUntracked | android_java/app/src/main/java/org/tensorflow/lite/examples/imageclassification/DataProcessor.java:308-318 | a zone whose type file is empty reads as `default_zone_type` and is never tracked |
| Sysfs.DefaultTypeNoPu | android_java/app/src/main/java/org/tensorflow/lite/examples/imageclassification/DataProcessor.java:317 | `default_zone_type` does not even contain `pu` |
| Sysfs.FoldingKeepsMore | android_java/app/src/main/java/org/tensorflow/lite/examples/imageclassification/DataProcessor.java:293 | every zone the older case-sensitive filter keeps, the latest lower-casing filter keeps too |
| Sysfs.CpuDevicePaths | android_java/app/src/main/java/org/tensorflow/lite/examples/imageclassification/DataProcessor.java:343-346 | one `<dir>/<name>/` path per listed core, in listing order |
| Sysfs.GetCPUDeviceFiles | android_java/app/src/main/java/org/tensorflow/lite/examples/imageclassification/DataProcessor.java:334-351 | the loop returns `CpuDevicePaths` of the listing `ls \| grep 'cpu[0-9]'` (`cpu[0-7]` in the older copies) |
| Sysfs.MilliToDegrees | android_java/app/src/main/java/org/tensorflow/lite/examples/imageclassification/DataProcessor.java:327-329 | a milli-degree reading becomes degrees, with negative readings clamped to 0 |
| Sysfs.ZoneTempCases | android_java/app/src/main/java/org/tensorflow/lite/examples/imageclassification/DataProcessor.java:320-332 | an empty temperature file reads as -1 (0 in the older copies), an integer reading as clamped degrees, and any other line throws NumberFormatException |
| Sysfs.ZoneType | android_java/app/src/main/java/org/tensorflow/lite/examples/imageclassification/DataProcessor.java:308-318 | the zone type is the first line of the `type` file, or `default_zone_type` when it prints nothing, and holds no line break |
| Sysfs.ZoneTemp | android_java/app/src/main/java/org/tensorflow/lite/examples/imageclassification/DataProcessor.java:320-332 | a temperature reads as degrees clamped at zero, or as the missing value only when the file prints nothing; the only error is NumberFormatException, and only on a printed line |
| Sysfs.ScaledReadsBack | android_java/app/src/main/java/org/tensorflow/lite/examples/imageclassification/DataProcessor.java:353-379 | a frequency written as an integer reads back divided by its unit (10^6 for a core, 1000 for the GPU), and an empty file as 0 |
| Sysfs.Scaled | android_java/app/src/main/java/org/tensorflow/lite/examples/imageclassification/DataProcessor.java:353-379 | an empty reading is 0; otherwise the reading succeeds exactly when its first line parses, and the only error is NumberFormatException |
| Sysfs.CpuFreq | android_java/app/src/main/java/org/tensorflow/lite/examples/imageclassification/DataProcessor.java:353-365 | a core frequency read from a printed line, times 10^6, is the number on that line |
| Sysfs.GpuFreq | android_java/app/src/main/java/org/tensorflow/lite/examples/imageclassification/DataProcessor.java:367-379 | a GPU frequency read from a printed line, times 1000, is the number on that line |
| Sysfs.GpuUtilPercent | android_java/app/src/main/java/org/tensorflow/lite/examples/imageclassification/DataProcessor.java:405-419 | a `NN%...` or `NN %` utilisation line reads as NN |
| Sysfs.GpuUtilBarePercent | android_java/app/src/main/java/org/tensorflow/lite/examples/imageclassification/DataProcessor.java:412-413 | a line that is just `%` splits into no pieces, so indexing piece 0 throws |
| Sysfs.GpuUtil | android_java/app/src/main/java/org/tensorflow/lite/examples/imageclassification/DataProcessor.java:405-419 | an empty reading is the missing value; otherwise, unless splitting leaves nothing to index, the reading is the text before the first `%` parsed as a float |
| Sysfs.AppLine | android_java/app/src/main/java/org/tensorflow/lite/examples/imageclassification/DataProcessor.java:387-395 | the row chosen from `top` mentions `org.tensorflow`, and one is chosen exactly when some row mentions it |
| Sysfs.CpuUtilWithoutApp | android_java/app/src/main/java/org/tensorflow/lite/examples/imageclassification/DataProcessor.java:397-401 | with no row for the app the reading is the four-field sentinel's value, `-1` (`0` in the older copies) |
| Sysfs.CpuUtil | android_java/app/src/main/java/org/tensorflow/lite/examples/imageclassification/DataProcessor.java:381-403 | the reading fails exactly when the app's row splits into fewer than four fields, and then with IndexOutOfBoundsException; with no row for the app it is the sentinel's value |
| Sysfs.GetCPUUtilization | android_java/app/src/main/java/org/tensorflow/lite/examples/imageclassification/DataProcessor.java:381-403 | the scan over `top`'s lines returns `CpuUtil`, the field `size - 4` of the app's row or of the sentinel |
| Sysfs.CpuUtilIsCell | android_java/app/src/main/java/org/tensorflow/lite/examples/imageclassification/DataProcessor.java:392-402 | the CPU share never holds a comma or a line break, so it is one record field |
| Sysfs.TopFieldsLayout | android_java/app/src/main/java/org/tensorflow/lite/examples/imageclassification/DataProcessor.java:389-396 | a row of words separated by runs of spaces splits into those words, with an empty first field when the row starts with spaces |
| Sysfs.CpuUtilPicksFourthFromEnd | android_java/app/src/main/java/org/tensorflow/lite/examples/imageclassification/DataProcessor.java:386-402 | for a `top` row of at least four space-separated words, the reading is the fourth word from the end |
| Telemetry.Mean | android_java/app/src/main/java/org/tensorflow/lite/examples/imageclassification/DataProcessor.java:260-263 | `sum /= count` is NaN exactly when nothing was counted, and otherwise is the value that times the count gives the sum |
| Telemetry.Classify | android_java/app/src/main/java/org/tensorflow/lite/examples/imageclassification/DataProcessor.java:245-258 | the `if`/`else if` chain picks the first domain, in order, whose name the zone type contains, and picks none exactly when it contains none |
| Telemetry.ClassifyChain | android_java/app/src/main/java/org/tensorflow/lite/examples/imageclassification/DataProcessor.java:245-258 | the chain tests `cpu`, `gpu`, `npu`, then `tpu` (the latter in the latest revision only) |
| Telemetry.CaseOnlyZoneFeedsNothing | android_java/app/src/main/java/org/tensorflow/lite/examples/imageclassification/DataProcessor.java:293 | a zone typed `CPU` passes the lower-casing filter, but the case-sensitive chain adds its reading to no domain |
| Telemetry.CpuUtilCell | android_java/app/src/main/java/org/tensorflow/lite/examples/imageclassification/DataProcessor.java:154-160 | the CPU share in the utilisation list is exactly `getCPUUtilization`'s result or error |
| Telemetry.ReadSamplesReadsEach | android_java/app/src/main/java/org/tensorflow/lite/examples/imageclassification/DataProcessor.java:243-245 | the pass over the zones succeeds if and only if every temperature parses, and then pairs each zone with its temperature and type, in order |
| Telemetry.ReadSamplesFirstError | android_java/app/src/main/java/org/tensorflow/lite/examples/imageclassification/DataProcessor.java:243-245 | the first temperature that throws is the error of the whole cycle |
| Telemetry.TallyOf | android_java/app/src/main/java/org/tensorflow/lite/examples/imageclassification/DataProcessor.java:243-259 | a domain's count never exceeds the number of zones, and an empty domain's sum is 0 |
| Telemetry.EachReadingCountedOnce | android_java/app/src/main/java/org/tensorflow/lite/examples/imageclassification/DataProcessor.java:243-259 | the four counts add up to the number of zones the chain classified, so no reading is counted twice |
| Telemetry.UnclassifiedIgnored | android_java/app/src/main/java/org/tensorflow/lite/examples/imageclassification/DataProcessor.java:245-258 | a zone no branch matches changes no sum and no count |
| Telemetry.BuildTypeHeaders | android_java/app/src/main/java/org/tensorflow/lite/examples/imageclassification/DataProcessor.java:66-69 | the `StringBuilder` loop appends `<domain>Temperature,` for each domain of interest, in order |
| Telemetry.TypeHeaderNames | android_java/app/src/main/java/org/tensorflow/lite/examples/imageclassification/DataProcessor.java:68 | one domain's header column mentions its own name and no other domain's |
| Telemetry.TypeHeadersEndInComma | android_java/app/src/main/java/org/tensorflow/lite/examples/imageclassification/DataProcessor.java:68 | the headers text ends in a comma, ready for the next column |
| Telemetry.TypeHeadersMention | android_java/app/src/main/java/org/tensorflow/lite/examples/imageclassification/DataProcessor.java:264-276 | the headers text contains a domain's name if and only if the domain is of interest, so `validZones.contains` tests membership |
| Telemetry.TalliesOf | android_java/app/src/main/java/org/tensorflow/lite/examples/imageclassification/DataProcessor.java:247-259 | the four accumulators of a cycle keep a zero sum wherever the count is zero |
| Telemetry.ThermalListShape | android_java/app/src/main/java/org/tensorflow/lite/examples/imageclassification/DataProcessor.java:234-276 | for `cpu`, `gpu`, `npu` of interest the thermal list is the status then the CPU, GPU and NPU means, and `tpu` is never emitted |
| Telemetry.ProcessThermalData | android_java/app/src/main/java/org/tensorflow/lite/examples/imageclassification/DataProcessor.java:228-279 | the loop, the divisions and the emission give `ThermalData`: the status and the emitted means, or the first parse error |
| Telemetry.TalliesStep | android_java/app/src/main/java/org/tensorflow/lite/examples/imageclassification/DataProcessor.java:243-259 | one more zone feeds its temperature to the domain the chain picks and to nothing else |
| Telemetry.SumZones | android_java/app/src/main/java/org/tensorflow/lite/examples/imageclassification/DataProcessor.java:243-259 | the accumulating loop ends with the tallies of all samples, or with the first parse error |
| Telemetry.FeedReading | android_java/app/src/main/java/org/tensorflow/lite/examples/imageclassification/DataProcessor.java:245-258 | one step of the chain adds the reading to the chosen domain's sum and count |
| Telemetry.EmitMeans | android_java/app/src/main/java/org/tensorflow/lite/examples/imageclassification/DataProcessor.java:264-276 | the four `contains` tests emit the status then the means of the domains the headers mention |
| Telemetry.CoreFreqSumReadsEach | android_java/app/src/main/java/org/tensorflow/lite/examples/imageclassification/DataProcessor.java:197-203 | the core frequency sum exists if and only if every core's reading parses |
| Telemetry.FrequencyMean | android_java/app/src/main/java/org/tensorflow/lite/examples/imageclassification/DataProcessor.java:204-223 | the frequency list has two entries; the CPU mean is NaN exactly when no core was found, and otherwise times the core count gives the sum |
| Telemetry.SilentCoresSumToZero | android_java/app/src/main/java/org/tensorflow/lite/examples/imageclassification/DataProcessor.java:358-364 | cores whose frequency file is empty add up to 0 |
| Telemetry.ProcessFrequencyData | android_java/app/src/main/java/org/tensorflow/lite/examples/imageclassification/DataProcessor.java:189-226 | the loop over the cores and the GPU read give `FrequencyData` |
| Telemetry.CoreFreqFirstError | android_java/app/src/main/java/org/tensorflow/lite/examples/imageclassification/DataProcessor.java:197-203 | the first core whose reading throws ends the cycle with its error |
| Telemetry.RecordFields | android_java/app/src/main/java/org/tensorflow/lite/examples/imageclassification/DataProcessor.java:122-139 | a record is laid out if and only if every list is long enough for the indices used, and it then has the revision's width and starts with the time |
| Telemetry.CycleFields | android_java/app/src/main/java/org/tensorflow/lite/examples/imageclassification/DataProcessor.java:112-139 | a cycle that reads without error lays out the time, the status, the mean CPU, GPU and NPU zone temperatures, the mean core frequency and the GPU frequency, then (except in `PFManager`) the CPU share and the GPU utilisation, in that order |
| Telemetry.RecordColumns | android_java/app/src/main/java/org/tensorflow/lite/examples/imageclassification/DataProcessor.java:122-139 | the record a cycle appends reads back, column by column of the header, as the measurement that column names |
| Telemetry.CycleWidth | android_java/app/src/main/java/org/tensorflow/lite/examples/imageclassification/DataProcessor.java:112-145 | a cycle that reads without error always lays out a record, which reads back as exactly the revision's number of fields (9, or 7 for `PFManager`) |
| Telemetry.ThermalData | android_java/app/src/main/java/org/tensorflow/lite/examples/imageclassification/DataProcessor.java:228-279 | the thermal list exists if and only if every zone's temperature parses; it opens with the status, followed by at most four means |
| Telemetry.FrequencyData | android_java/app/src/main/java/org/tensorflow/lite/examples/imageclassification/DataProcessor.java:189-226 | the frequency list exists if and only if every core's frequency and the GPU frequency parse; it holds two numbers, the second the GPU frequency; a core's parse error is the one reported when the GPU reads |
| Telemetry.UtilizationData | android_java/app/src/main/java/org/tensorflow/lite/examples/imageclassification/DataProcessor.java:147-187 | the utilisation list exists if and only if both readings succeed; a CPU error is reported before a GPU one; it holds two fields, the CPU share first, as text |
| Telemetry.CycleRecord | android_java/app/src/main/java/org/tensorflow/lite/examples/imageclassification/DataProcessor.java:112-145 | a record is produced exactly when the cycle reads without error and lays out |
| Telemetry.CycleRecordLine | android_java/app/src/main/java/org/tensorflow/lite/examples/imageclassification/DataProcessor.java:122-139 | the record a cycle produces is one line ending in a newline and reads back as one field per laid-out value |
| Telemetry.BuildRecord | android_java/app/src/main/java/org/tensorflow/lite/examples/imageclassification/DataProcessor.java:112-139 | reading the thermal, frequency and (except in `PFManager`) utilisation lists in turn, stopping at the first error, and laying out the record yields exactly the cycle's specified record |
| Telemetry.InterestHeaders | android_java/app/src/main/java/org/tensorflow/lite/examples/imageclassification/DataProcessor.java:66-69 | the headers text for `cpu`, `gpu`, `npu` is `cpuTemperature,gpuTemperature,npuTemperature,` |
| Telemetry.MainActivityHeaderColumns | android_java/app/src/main/java/org/tensorflow/lite/examples/imageclassification/MainActivity.java:88-117 | the older header is the CSV record of the nine column names |
| Telemetry.DataProcessorHeaderAround | android_java/app/src/main/java/org/tensorflow/lite/examples/imageclassification/DataProcessor.java:74-86 | the latest header is the fixed lead columns, the headers text, then the fixed tail columns |
| Telemetry.HeadersAgree | android_java/app/src/main/java/org/tensorflow/lite/examples/imageclassification/DataProcessor.java:74-86 | the latest and the older header are the same line, with nine columns |
| Telemetry.HeaderWidth | android_java/app/src/main/java/org/tensorflow/lite/examples/imageclassification/DataProcessor.java:74-86 | the latest header reads back as nine fields |
| Telemetry.ColumnsReadBack | android_java/app/src/main/java/org/tensorflow/lite/examples/imageclassification/MainActivity.java:88-117 | the record of the nine column names reads back as nine fields |
| Telemetry.SchemaMismatch | android_java/app/src/main/java/org/tensorflow/lite/examples/imageclassification/PFManager.java:128-141 | a listener record has 7 fields while the header it is appended under has 9 |
| Telemetry.ThermalStatusName | android_java/app/src/main/java/org/tensorflow/lite/examples/imageclassification/PFManager.java:91-117 | each status code 0 to 6 has its own name, which leads back to the code, and every other code reads `Unknown` |
| Csv.RenderAll | android_java/app/src/main/java/org/tensorflow/lite/examples/imageclassification/DataProcessor.java:122-139 | one cell per field, in order, each the field's text |
| Csv.FieldsRecord | android_java/app/src/main/java/org/tensorflow/lite/examples/imageclassification/DataProcessor.java:122-139 | a record of comma-free cells reads back as those cells |
| Csv.FieldsRow | android_java/app/src/main/java/org/tensorflow/lite/examples/imageclassification/DataProcessor.java:122-139 | a record of fields reads back as the fields' texts, one per field |
| Csv.RecordIsOneLine | android_java/app/src/main/java/org/tensorflow/lite/examples/imageclassification/DataProcessor.java:139 | a record ends in its only line break |
| Csv.AlignedAppend | android_java/app/src/main/java/org/tensorflow/lite/examples/imageclassification/DataProcessor.java:121-140 | appending a record of the file's width keeps every record the same width |
| Csv.FileSystem.constructor | android_java/app/src/main/java/org/tensorflow/lite/examples/imageclassification/DataProcessor.java:73 | storage starts empty, with the device's rule for which paths open |
| Csv.FileSystem.Create | android_java/app/src/main/java/org/tensorflow/lite/examples/imageclassification/DataProcessor.java:73-91 | opening without append replaces the file by the header exactly when the path opens, and otherwise nothing changes |
| Csv.FileSystem.Append | android_java/app/src/main/java/org/tensorflow/lite/examples/imageclassification/DataProcessor.java:121-144 | opening with append adds the record, if there is one, exactly when the path opens, and nothing else changes |
| PerformanceFramework.PFManager.constructor | android_java/app/src/main/java/org/tensorflow/lite/examples/imageclassification/PFManager.java:42-52 | no path yet, status `None`, and the zones and cores discovered with the older filters |
| PerformanceFramework.PFManager.SetPerformanceFilePath | android_java/app/src/main/java/org/tensorflow/lite/examples/imageclassification/PFManager.java:47-49 | only the path changes |
| PerformanceFramework.PFManager.ProcessDataCollection | android_java/app/src/main/java/org/tensorflow/lite/examples/imageclassification/PFManager.java:119-147 | the cycle's outcome; a record of seven fields is appended to the stored path when it opens, and a parse error writes nothing |
| PerformanceFramework.PFManager.OnThermalStatusChanged | android_java/app/src/main/java/org/tensorflow/lite/examples/imageclassification/PFManager.java:55-63 | the status becomes the code's name, then exactly one cycle runs under it |
| DataProcessing.DataProcessor.constructor | android_java/app/src/main/java/org/tensorflow/lite/examples/imageclassification/DataProcessor.java:34-94 | the root probe's result and prefix, the path built from folder and series, discovery, the headers text, and a file holding only the header, whose record is nine fields wide |
| DataProcessing.DataProcessor.ProcessDataCollection | android_java/app/src/main/java/org/tensorflow/lite/examples/imageclassification/DataProcessor.java:112-145 | one cycle: the outcome, one nine-field record appended when the path opens, nothing on a parse error, and a file whose records all had nine fields keeps that property |
| Activity.MainActivity.constructor | android_java/app/src/main/java/org/tensorflow/lite/examples/imageclassification/MainActivity.java:70-131 | discovery, the nine-column header written when the path opens, and from Android Q on a fresh listener holding the same path and storage |
| Activity.MainActivity.NewListener | android_java/app/src/main/java/org/tensorflow/lite/examples/imageclassification/MainActivity.java:119-128 | a fresh `PFManager` on the same storage, handed the file's path, still reporting `None` |
| Activity.MainActivity.HeaderAligned | android_java/app/src/main/java/org/tensorflow/lite/examples/imageclassification/MainActivity.java:88-117 | the header alone is a file of nine-field records |
| Activity.MainActivity.ProcessDataCollection | android_java/app/src/main/java/org/tensorflow/lite/examples/imageclassification/MainActivity.java:218-252 | from Android Q on the listener's status is copied first (and kept even if the cycle then fails); then one cycle that appends nine fields and keeps the file's records aligned |
| Classifier.Wrap32 | android_java/app/src/main/java/org/tensorflow/lite/examples/imageclassification/ImageClassifierHelperKotlin.kt:86-88 | a Kotlin `Int` result lies in the 32-bit range and equals the exact value whenever that fits |
| Classifier.Wrap32Congruent | android_java/app/src/main/java/org/tensorflow/lite/examples/imageclassification/ImageClassifierHelperKotlin.kt:86-88 | wrapping changes a value by a multiple of 2^32 only |
| Classifier.TruncDivBounds | android_java/app/src/main/java/org/tensorflow/lite/examples/imageclassification/ImageClassifierHelperKotlin.kt:87 | Kotlin's `/` rounds toward zero: the quotient is odd-symmetric and brackets the dividend from the side of zero |
| Classifier.Divisor | android_java/app/src/main/java/org/tensorflow/lite/examples/imageclassification/ImageClassifierHelperKotlin.kt:87 | `max(1, total / 1000000)` is never zero |
| Classifier.DivisorCases | android_java/app/src/main/java/org/tensorflow/lite/examples/imageclassification/ImageClassifierHelperKotlin.kt:87 | the divisor is 1 below two million, and otherwise the total in whole millions |
| Classifier.ThroughputExact | android_java/app/src/main/java/org/tensorflow/lite/examples/imageclassification/ImageClassifierHelperKotlin.kt:86-88 | while `count * 1000` fits in an `Int`, the throughput is that product over the divisor, lies between 0 and that product, and equals it below two million |
| Classifier.ThroughputWraps | android_java/app/src/main/java/org/tensorflow/lite/examples/imageclassification/ImageClassifierHelperKotlin.kt:87 | at 2147484 executions `count * 1000` overflows and the throughput goes negative |
| Classifier.Throughput | android_java/app/src/main/java/org/tensorflow/lite/examples/imageclassification/ImageClassifierHelperKotlin.kt:86-88 | the throughput is always an `Int`, is 0 with no executions, and while `count * 1000` does not wrap lies between 0 and that product |
| Classifier.ImageClassifierHelper.CalculateThroughput | android_java/app/src/main/java/org/tensorflow/lite/examples/imageclassification/ImageClassifierHelperKotlin.kt:86-88 | the helper's throughput is an `Int`, 0 before any execution is counted, and non-negative while the product does not wrap |
| Classifier.ClassifyStep | android_java/app/src/main/java/org/tensorflow/lite/examples/imageclassification/ImageClassifierHelperKotlin.kt:164-196 | one call counts one more execution (while the count fits in an `Int`), leaves the run flag, and, with a clock that does not run backwards, never lowers the total; the new inference time is `finish` less the previous one; the total grows by the new inference time, plus the gap from the previous `inferenceTime` to `start` exactly when that previous value is not 0 |
| Classifier.ModelName | android_java/app/src/main/java/org/tensorflow/lite/examples/imageclassification/ImageClassifierHelperKotlin.kt:208-218 | each model index 0 to 3 names its own file, and every other index falls back to `mobilenetv1.tflite` |
| Classifier.DelegateName | android_java/app/src/main/java/org/tensorflow/lite/examples/imageclassification/ImageClassifierHelperKotlin.kt:219-228 | each delegate index 0 to 2 has its own name, which leads back to it, and every other index reads `unknown` |
| Classifier.Sleep | android_java/app/src/main/java/org/tensorflow/lite/examples/imageclassification/ImageClassifierHelperKotlin.kt:186-191 | the delay is never negative, is taken exactly when time is left in the period, and then fills the period |
| Classifier.RunCounts | android_java/app/src/main/java/org/tensorflow/lite/examples/imageclassification/ImageClassifierHelperKotlin.kt:133-194 | after a reset, `n` classify calls count exactly `n` executions, and leave the run flag alone |
| Classifier.Reset | android_java/app/src/main/java/org/tensorflow/lite/examples/imageclassification/ImageClassifierHelperKotlin.kt:133-137 | right after a reset the throughput is 0, whatever the counters held; the clock reading is kept and the run flag is untouched |
| Classifier.InferenceTimeSinceReset | android_java/app/src/main/java/org/tensorflow/lite/examples/imageclassification/ImageClassifierHelperKotlin.kt:170-194 | the first call after a reset records `finish - t0` as its inference time, which measures from the reset and not from `start` |
| Classifier.ImageClassifierHelper.constructor | android_java/app/src/main/java/org/tensorflow/lite/examples/imageclassification/ImageClassifierHelperKotlin.kt:47-58 | the field defaults: 2 threads, 3 results, CPU delegate, model 0, period 500; not running, no executions, total 1 |
| Classifier.ImageClassifierHelper.SetMaxResults | android_java/app/src/main/java/org/tensorflow/lite/examples/imageclassification/ImageClassifierHelperKotlin.kt:49 | only `maxResults` changes |
| Classifier.ImageClassifierHelper.SetNumThreads | android_java/app/src/main/java/org/tensorflow/lite/examples/imageclassification/ImageClassifierHelperKotlin.kt:48 | only `numThreads` changes |
| Classifier.ImageClassifierHelper.SetTaskPeriod | android_java/app/src/main/java/org/tensorflow/lite/examples/imageclassification/ImageClassifierHelperKotlin.kt:52 | only `taskPeriod` changes |
| Classifier.ImageClassifierHelper.SetCurrentDelegate | android_java/app/src/main/java/org/tensorflow/lite/examples/imageclassification/ImageClassifierHelperKotlin.kt:66-68 | only the delegate changes |
| Classifier.ImageClassifierHelper.SetCurrentModel | android_java/app/src/main/java/org/tensorflow/lite/examples/imageclassification/ImageClassifierHelperKotlin.kt:74-76 | only the model changes |
| Classifier.ImageClassifierHelper.StartCollect | android_java/app/src/main/java/org/tensorflow/lite/examples/imageclassification/ImageClassifierHelperKotlin.kt:139-145 | the counters are reset at `now` and the helper runs; the settings are untouched |
| Classifier.ImageClassifierHelper.PauseCollect | android_java/app/src/main/java/org/tensorflow/lite/examples/imageclassification/ImageClassifierHelperKotlin.kt:147-150 | only the run flag drops |
| Classifier.ImageClassifierHelper.Classify | android_java/app/src/main/java/org/tensorflow/lite/examples/imageclassification/ImageClassifierHelperKotlin.kt:164-196 | the counters advance by one `ClassifyStep`, the settings are untouched, and the delay returned is what is left of the period |
| Camera.SteppersKeepRange | android_java/app/src/main/java/org/tensorflow/lite/examples/imageclassification/fragments/CameraFragment.java:202-266 | the minus and plus buttons keep a value inside its bounds |
| Camera.SteppersUndo | android_java/app/src/main/java/org/tensorflow/lite/examples/imageclassification/fragments/CameraFragment.java:202-266 | a button changes the value exactly when it is off its bound, and plus undoes minus (and the reverse) away from the bounds |
| Camera.ThroughputHeaderColumns | android_java/app/src/main/java/org/tensorflow/lite/examples/imageclassification/fragments/CameraFragment.java:150-160 | the throughput header is the record of its five column names and reads back as them |
| Camera.ThroughputRowFields | android_java/app/src/main/java/org/tensorflow/lite/examples/imageclassification/fragments/CameraFragment.java:500-512 | a throughput row reads back as time, model, delegate, throughput and period, one field per header column |
| Camera.ThroughputHeader | android_java/app/src/main/java/org/tensorflow/lite/examples/imageclassification/fragments/CameraFragment.java:149-160 | the throughput header opens with the `time` column and ends in a newline |
| Camera.ThroughputRow | android_java/app/src/main/java/org/tensorflow/lite/examples/imageclassification/fragments/CameraFragment.java:500-512 | a throughput row opens with the time as its own cell and ends in a newline |
| Camera.CameraFragment.constructor | android_java/app/src/main/java/org/tensorflow/lite/examples/imageclassification/fragments/CameraFragment.java:121-169 | a fresh helper heads a one-element list, both toggles are off, the settings lie within the buttons' ranges, and the file holds only the header when its path opens |
| Camera.CameraFragment.MaxResultsMinus | android_java/app/src/main/java/org/tensorflow/lite/examples/imageclassification/fragments/CameraFragment.java:202-212 | `maxResults` steps down unless at 1, nothing else changes, and the range is kept |
| Camera.CameraFragment.MaxResultsPlus | android_java/app/src/main/java/org/tensorflow/lite/examples/imageclassification/fragments/CameraFragment.java:216-226 | `maxResults` steps up unless at 3, nothing else changes, and the range is kept |
| Camera.CameraFragment.TaskPeriodMinus | android_java/app/src/main/java/org/tensorflow/lite/examples/imageclassification/fragments/CameraFragment.java:229-236 | the period steps down unless at 0, nothing else changes, and the range is kept |
| Camera.CameraFragment.TaskPeriodPlus | android_java/app/src/main/java/org/tensorflow/lite/examples/imageclassification/fragments/CameraFragment.java:239-246 | the period steps up unless at 1000, nothing else changes, and the range is kept |
| Camera.CameraFragment.ThreadsMinus | android_java/app/src/main/java/org/tensorflow/lite/examples/imageclassification/fragments/CameraFragment.java:249-256 | the thread count steps down unless at 1, nothing else changes, and the range is kept |
| Camera.CameraFragment.ThreadsPlus | android_java/app/src/main/java/org/tensorflow/lite/examples/imageclassification/fragments/CameraFragment.java:259-266 | the thread count steps up unless at 4, nothing else changes, and the range is kept |
| Camera.CameraFragment.SelectDelegate | android_java/app/src/main/java/org/tensorflow/lite/examples/imageclassification/fragments/CameraFragment.java:270-287 | the selected position becomes the delegate; nothing else changes |
| Camera.CameraFragment.SelectModel | android_java/app/src/main/java/org/tensorflow/lite/examples/imageclassification/fragments/CameraFragment.java:291-308 | the selected position becomes the model; nothing else changes |
| Camera.CameraFragment.ToggleState | android_java/app/src/main/java/org/tensorflow/lite/examples/imageclassification/fragments/CameraFragment.java:312-334 | classification flips; switching on rebuilds the helper list (three helpers in test mode, else one), switching off leaves it alone |
| Camera.CameraFragment.ToggleTest | android_java/app/src/main/java/org/tensorflow/lite/examples/imageclassification/fragments/CameraFragment.java:337-341 | only the test flag flips |
| Camera.CameraFragment.ConfigureImageClassifiers | android_java/app/src/main/java/org/tensorflow/lite/examples/imageclassification/fragments/CameraFragment.java:462-472 | the list becomes the current helper followed, in test mode, by two fresh helpers |
| Camera.CameraFragment.ClassifyImage | android_java/app/src/main/java/org/tensorflow/lite/examples/imageclassification/fragments/CameraFragment.java:442-460 | every helper in the list classifies the frame once, in list order, with its own clock readings, and the first helper becomes the current one; the classification and test flags are left as they were |
| Camera.CameraFragment.ProcessDataCollection | android_java/app/src/main/java/org/tensorflow/lite/examples/imageclassification/fragments/CameraFragment.java:489-517 | the current helper's row, five fields wide, is appended when the path opens |

## Left out

- Threads, timers and coroutines are left out. The `Timer`s (every 2000 ms in `DataProcessor` and `MainActivity`, every 1000 ms in `CameraFragment`), `runBlocking`, `delay`, `collectStream` and the `synchronized` block are not modelled. Each periodic task is one method call, and `classify` returns the delay it would sleep.
- Process execution and `BufferedReader` are left out. A `Shell` function stands in for the device's answers, and `waitFor` and `close` have no counterpart. An `IOException` from `exec` is never raised; the root probe's outcome is the `suStarts` parameter.
- IEEE `float` arithmetic is left out. Sums, quotients and unit conversions are exact `real`s, and NaN is kept as its own value. `Float.toString` is the opaque parameter `show`.
- Csv.Render: prints a number through `show`, whose results are typed as cells, free of commas and line breaks. `Float.toString` always satisfies this, but its digits are not modelled.
- Text.ParseFloatInteger: `Float.parseFloat` is modelled on plain decimals with an optional sign and fraction only. Exponents, the type suffixes `f`, `F`, `d` and `D`, `Infinity`, `NaN` and hexadecimal floats are read as NumberFormatException, where Java accepts them.
- Text.ParseInt32: `Integer.parseInt` is modelled on ASCII digits only. The non-ASCII decimal digits Java also accepts (Arabic-Indic, fullwidth and so on) are read as NumberFormatException.
- Text.LowerKeepsMatch: `toLowerCase` is modelled on ASCII letters only.
- The Kotlin `Long` fields (`inferenceTime`, `totalExecutionTime`, `taskPeriod`) are unbounded integers, and their 64-bit wrap-around is not modelled. The `Int` wrap-around of `executionCount` and of `executionCount * 1000` is modelled.
- The classification threshold buttons (`CameraFragment.java` lines 181-198) step a `Float` by 0.1 and are not modelled.
- UI work is not modelled: views, adapters, spinners, camera binding and `updateControlsUi`.
- TensorFlow Lite is not modelled: `setupImageClassifier`, the image processor and the inference itself.
- Thermal listener registration with the `PowerManager` (`PFManager.java` lines 65-89) is not modelled. A status change is a call to `OnThermalStatusChanged`.
- The newer `MainActivity`, which owns a `DataProcessor` and tracks the status, is not part of this model. Its `currentFolder` and `currentThermalStatus` are parameters of `DataProcessor`.
- The Java `ImageClassifierHelper` that `CameraFragment` instantiates is not part of this model. The Kotlin `ImageClassifierHelperKotlin`, with the same fields and counters, stands in for it.
- A `NumberFormatException` (a reading that does not parse) or an `IndexOutOfBoundsException` (a `split` with no piece, a `top` row with fewer than four fields) propagates out of `processDataCollection` unwrapped; the model returns it as the `Err` that ends the cycle without appending. The `Timer` thread dies after such an exception, so no later tick runs; that is not modelled, and each model cycle is independent.
