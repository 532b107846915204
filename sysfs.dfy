/**
 * The device side of the collector: the commands it issues, how each revision
 * discovers thermal zones and CPU cores, and how one-line readings become numbers.
 */
module Sysfs {
  import opened Wrappers
  import opened Text

  /**
   * How a command reaches the device. `Runtime.exec(String)` splits one command
   * line into words and runs no shell; `exec(new String[] {"sh", "-c", script})`
   * hands a script to the shell.
   */
  datatype Command = Exec(line: string) | ShellScript(script: string)

  /** What the device prints for each command, one entry per output line. */
  type Shell = Command -> seq<Line>

  /** `BufferedReader.readLine` once: the first output line, or `null`. */
  function FirstLine(out: seq<Line>): (r: Option<Line>)
    ensures r.None? <==> |out| == 0
  {
    if |out| == 0 then None else Some(out[0])
  }

  // ---------------------------------------------------------------------------
  // Domains

  /** The processing units the collector reports temperatures for. */
  datatype Domain = Cpu | Gpu | Npu | Tpu

  function DomainName(d: Domain): (s: string)
    ensures |s| == 3 && s[1..] == "pu"
  {
    match d
    case Cpu => "cpu"
    case Gpu => "gpu"
    case Npu => "npu"
    case Tpu => "tpu"
  }

  lemma DomainNameInjective(d: Domain, e: Domain)
    requires DomainName(d)[0] == DomainName(e)[0]
    ensures d == e
  {
  }

  /** The zone-type substrings every revision tracks, in order. */
  const Interest: seq<Domain> := [Cpu, Gpu, Npu]

  // ---------------------------------------------------------------------------
  // Revisions

  /**
   * The three copies of the collector. `DataProcessorRev` is the latest one and
   * remembers whether the `su` probe succeeded.
   */
  datatype Revision = DataProcessorRev(isRooted: bool) | MainActivityRev | PFManagerRev

  /** The prefix the latest revision puts in front of every sysfs command. */
  function RootAccess(isRooted: bool): string {
    if isRooted then "su -c" else ""
  }

  /** `cat <target>`, as each revision issues it. */
  function Cat(rev: Revision, target: string): Command {
    match rev
    case DataProcessorRev(rooted) => Exec(RootAccess(rooted) + " cat " + target)
    case _ => Exec("cat " + target)
  }

  /** `ls <dir> | grep '<pattern>'`, as each revision issues it. */
  function List(rev: Revision, dir: string, pattern: string): Command {
    match rev
    case DataProcessorRev(rooted) =>
      Exec(RootAccess(rooted) + " ls " + dir + " | grep '" + pattern + "'")
    case _ => ShellScript("ls " + dir + " | grep '" + pattern + "'")
  }

  /** A file inside a zone directory whose path ends in `/`. */
  function ZoneFile(rev: Revision, zonePath: string, name: string): string {
    if rev.DataProcessorRev? then zonePath + name else zonePath + "/" + name
  }

  function CpuPattern(rev: Revision): string {
    if rev.DataProcessorRev? then "cpu[0-9]" else "cpu[0-7]"
  }

  /** The value an absent temperature or GPU-utilisation line stands for. */
  function Missing(rev: Revision): int {
    if rev.DataProcessorRev? then -1 else 0
  }

  /** Whether discovery lower-cases the zone type before matching. */
  function FoldsCase(rev: Revision): bool {
    rev.DataProcessorRev?
  }

  /** The domains a cycle sorts zones into, in the order they are tried. */
  function Classes(rev: Revision): seq<Domain> {
    if rev.DataProcessorRev? then [Cpu, Gpu, Npu, Tpu] else [Cpu, Gpu, Npu]
  }

  const KgslDir := "/sys/class/kgsl/kgsl-3d0"
  const MaliDir := "/sys/class/misc/mali0/device"

  /** The GPU frequency file (in MHz on kgsl devices). */
  function GpuFreqTarget(rev: Revision): string {
    match rev
    case DataProcessorRev(rooted) =>
      if rooted then MaliDir + "/" + "/" + "cur_freq" else KgslDir + "/" + "clock_mhz"
    case _ => KgslDir + "/clock_mhz"
  }

  /** The GPU utilisation file; `PFManager` does not read one. */
  function GpuUtilTarget(rev: Revision): string {
    match rev
    case DataProcessorRev(rooted) =>
      if rooted then MaliDir + "/" + "utilization" else KgslDir + "/" + "gpu_busy_percentage"
    case _ => KgslDir + "/gpu_busy_percentage"
  }

  /** The `top` invocation: the same in every revision, never prefixed. */
  const Top: Command := Exec("top -s 6")

  /** Every command the latest revision sends to sysfs carries its access prefix. */
  lemma SysfsCommandsPrefixed(rooted: bool, target: string, dir: string, pattern: string)
    ensures Cat(DataProcessorRev(rooted), target).line[..|RootAccess(rooted)| + 1]
      == RootAccess(rooted) + " "
    ensures List(DataProcessorRev(rooted), dir, pattern).line[..|RootAccess(rooted)| + 1]
      == RootAccess(rooted) + " "
    ensures Top.line[..3] == "top"
  {
  }

  // ---------------------------------------------------------------------------
  // Thermal zone discovery

  const ThermalDir := "/sys/class/thermal"
  const CpuDir := "/sys/devices/system/cpu"
  const DefaultZoneType := "default_zone_type"

  /** `<dir>/<name>/`, the form every discovered path takes. */
  function EntryPath(dir: string, name: string): string {
    dir + "/" + name + "/"
  }

  lemma EntryPathInjective(dir: string, n1: string, n2: string)
    requires EntryPath(dir, n1) == EntryPath(dir, n2)
    ensures n1 == n2
  {
    assert n1 == EntryPath(dir, n1)[|dir| + 1..|dir| + 1 + |n1|];
    assert n2 == EntryPath(dir, n2)[|dir| + 1..|dir| + 1 + |n2|];
  }

  /** `getThermalZoneType`: the first line of the zone's `type` file, or a default. */
  function ZoneType(rev: Revision, sh: Shell, zonePath: string): (r: string)
    ensures '\n' !in r
    ensures sh(Cat(rev, ZoneFile(rev, zonePath, "type"))) == [] ==> r == DefaultZoneType
    ensures sh(Cat(rev, ZoneFile(rev, zonePath, "type"))) != [] ==> r == sh(Cat(rev, ZoneFile(rev, zonePath, "type")))[0]
  {
    match FirstLine(sh(Cat(rev, ZoneFile(rev, zonePath, "type"))))
    case None => DefaultZoneType
    case Some(line) => line
  }

  /** Whether one of `ds` names a substring of `t`. */
  predicate NamesAny(t: string, ds: seq<Domain>) {
    exists k :: 0 <= k < |ds| && Contains(t, DomainName(ds[k]))
  }

  /** The discovery filter, on the type text as the revision sees it. */
  predicate Tracked(rev: Revision, zoneType: string) {
    NamesAny(if FoldsCase(rev) then Lower(zoneType) else zoneType, Interest)
  }

  predicate Kept(rev: Revision, sh: Shell, dir: string, name: string) {
    Tracked(rev, ZoneType(rev, sh, EntryPath(dir, name)))
  }

  /** The discovery filter as a value, applied to a listed name. */
  function KeptBy(rev: Revision, sh: Shell, dir: string): string -> bool {
    name => Kept(rev, sh, dir, name)
  }

  /** The zone paths discovery keeps from the listed names, in listing order. */
  function ZonePaths(dir: string, names: seq<string>, keep: string -> bool): seq<string> {
    if |names| == 0 then []
    else
      var name := names[|names| - 1];
      ZonePaths(dir, names[..|names| - 1], keep) + (if keep(name) then [EntryPath(dir, name)] else [])
  }

  /** One more listed name adds its path exactly when the filter keeps it. */
  lemma ZonePathsStep(dir: string, names: seq<string>, n: nat, keep: string -> bool)
    requires n < |names|
    ensures ZonePaths(dir, names[..n + 1], keep)
      == ZonePaths(dir, names[..n], keep) + (if keep(names[n]) then [EntryPath(dir, names[n])] else [])
  {
    assert names[..n + 1][..n] == names[..n];
  }

  /** `getThermalZoneFilePaths`: list the zones, keep each whose type names a domain of interest. */
  method GetThermalZoneFilePaths(rev: Revision, sh: Shell, dir: string) returns (paths: seq<string>)
    ensures paths == ZonePaths(dir, sh(List(rev, dir, "thermal_zone")), KeptBy(rev, sh, dir))
  {
    var names := sh(List(rev, dir, "thermal_zone"));
    paths := [];
    var n := 0;
    while n < |names|
      invariant 0 <= n <= |names|
      invariant paths == ZonePaths(dir, names[..n], KeptBy(rev, sh, dir))
    {
      var kept := ZoneKept(rev, sh, dir, names[n]);
      if kept {
        paths := paths + [EntryPath(dir, names[n])];
      }
      ZonePathsStep(dir, names, n, KeptBy(rev, sh, dir));
      n := n + 1;
    }
    assert names[..n] == names;
  }

  /** The loop body: read the zone's type, lower-case it where the revision does, test it. */
  method ZoneKept(rev: Revision, sh: Shell, dir: string, name: string) returns (kept: bool)
    ensures kept == KeptBy(rev, sh, dir)(name)
  {
    var zoneType := ZoneType(rev, sh, EntryPath(dir, name));
    if FoldsCase(rev) {
      zoneType := Lower(zoneType);
    }
    kept := NamesInterest(zoneType);
  }

  /** The inner filter loop: try each domain of interest in turn, stop at the first match. */
  method NamesInterest(t: string) returns (found: bool)
    ensures found == NamesAny(t, Interest)
  {
    found := false;
    var k := 0;
    while k < |Interest|
      invariant 0 <= k <= |Interest|
      invariant !found
      invariant forall j :: 0 <= j < k ==> !Contains(t, DomainName(Interest[j]))
    {
      if Contains(t, DomainName(Interest[k])) {
        found := true;
        break;
      }
      k := k + 1;
    }
  }

  /** A path is discovered iff some listed name leads to it and that zone is kept. */
  lemma {:induction false} ZonePathsMembers(dir: string, names: seq<string>, keep: string -> bool, p: string)
    ensures p in ZonePaths(dir, names, keep) <==>
      exists k :: 0 <= k < |names| && p == EntryPath(dir, names[k]) && keep(names[k])
  {
    if |names| > 0 {
      var init := names[..|names| - 1];
      ZonePathsMembers(dir, init, keep, p);
      if p in ZonePaths(dir, names, keep) && p !in ZonePaths(dir, init, keep) {
        assert p == EntryPath(dir, names[|names| - 1]);
      }
      if exists k :: 0 <= k < |names| && p == EntryPath(dir, names[k]) && keep(names[k]) {
        var k :| 0 <= k < |names| && p == EntryPath(dir, names[k]) && keep(names[k]);
        if k < |init| {
          assert init[k] == names[k];
        }
      }
    }
  }

  /** Each listed name contributes its path exactly as often as it is listed, when kept. */
  lemma {:induction false} ZonePathsCount(dir: string, names: seq<string>, keep: string -> bool, name: string)
    ensures multiset(ZonePaths(dir, names, keep))[EntryPath(dir, name)]
      == if keep(name) then multiset(names)[name] else 0
  {
    if |names| > 0 {
      var init := names[..|names| - 1];
      var last := names[|names| - 1];
      ZonePathsCount(dir, init, keep, name);
      ZonePathsLastCount(dir, names, keep, name);
      assert names == init + [last];
      assert multiset(names) == multiset(init) + multiset{last};
    }
  }

  /** The last listed name adds one to its own path's count when kept, and nothing to any other. */
  lemma ZonePathsLastCount(dir: string, names: seq<string>, keep: string -> bool, name: string)
    requires |names| > 0
    ensures multiset(ZonePaths(dir, names, keep))[EntryPath(dir, name)]
      == multiset(ZonePaths(dir, names[..|names| - 1], keep))[EntryPath(dir, name)]
        + (if names[|names| - 1] == name && keep(name) then 1 else 0)
  {
    var last := names[|names| - 1];
    var extra := if keep(last) then [EntryPath(dir, last)] else [];
    assert multiset(ZonePaths(dir, names, keep)) == multiset(ZonePaths(dir, names[..|names| - 1], keep)) + multiset(extra);
    if EntryPath(dir, last) == EntryPath(dir, name) {
      EntryPathInjective(dir, last, name);
    }
  }

  /** Discovery never keeps more zones than were listed. */
  lemma {:induction false} ZonePathsBound(dir: string, names: seq<string>, keep: string -> bool)
    ensures |ZonePaths(dir, names, keep)| <= |names|
  {
    if |names| > 0 {
      ZonePathsBound(dir, names[..|names| - 1], keep);
    }
  }

  /** An unreadable type file makes the zone untracked in every revision. */
  lemma DefaultTypeUntracked(rev: Revision)
    ensures !Tracked(rev, DefaultZoneType)
  {
    DefaultTypeNoPu();
    assert Lower(DefaultZoneType) == DefaultZoneType;
    forall k | 0 <= k < |Interest|
      ensures !Contains(DefaultZoneType, DomainName(Interest[k]))
    {
      var d := DomainName(Interest[k]);
      assert d == [d[0]] + "pu";
      ContainsPiece(DefaultZoneType, [d[0]], "pu");
    }
  }

  lemma DefaultTypeNoPu()
    ensures !Contains(DefaultZoneType, "pu")
  {
    var s := DefaultZoneType;
    var a := "default_zone_ty";
    assert s == a + "pe" && 'p' !in a;
    forall i | 0 <= i <= |s| - 2
      ensures !OccursAt(s, "pu", i)
    {
      if i < |a| {
        assert s[i] == a[i] != 'p';
      } else {
        assert s[i + 1] == 'e';
      }
    }
  }

  /**
   * Lower-casing lets the latest revision keep zones the older ones drop (a type
   * spelt `CPU`), never the other way round.
   */
  lemma FoldingKeepsMore(zoneType: string, rooted: bool)
    requires Tracked(MainActivityRev, zoneType)
    ensures Tracked(DataProcessorRev(rooted), zoneType)
  {
    var k :| 0 <= k < |Interest| && Contains(zoneType, DomainName(Interest[k]));
    LowerKeepsMatch(zoneType, DomainName(Interest[k]));
  }

  // ---------------------------------------------------------------------------
  // CPU core discovery

  function CpuDevicePaths(dir: string, names: seq<string>): (r: seq<string>)
    ensures |r| == |names|
    ensures forall k :: 0 <= k < |names| ==> r[k] == EntryPath(dir, names[k])
  {
    seq(|names|, k requires 0 <= k < |names| => EntryPath(dir, names[k]))
  }

  /** `getCPUDeviceFiles`: one `<dir>/<name>/` path per listed line, in order. */
  method GetCPUDeviceFiles(rev: Revision, sh: Shell, dir: string) returns (paths: seq<string>)
    ensures paths == CpuDevicePaths(dir, sh(List(rev, dir, CpuPattern(rev))))
  {
    var names := sh(List(rev, dir, CpuPattern(rev)));
    paths := [];
    for n := 0 to |names|
      invariant paths == CpuDevicePaths(dir, names[..n])
    {
      paths := paths + [EntryPath(dir, names[n])];
    }
    assert names[..|names|] == names;
  }

  // ---------------------------------------------------------------------------
  // Readings

  /** Milli-degrees to degrees, negative readings clamped to zero. */
  function MilliToDegrees(m: int): (c: real)
    ensures c >= 0.0
    ensures m >= 0 ==> c * 1000.0 == m as real
    ensures m <= 0 ==> c == 0.0
  {
    (if m < 0 then 0 else m) as real / 1000.0
  }

  /** `getThermalZoneTemp`. */
  function ZoneTemp(rev: Revision, sh: Shell, zonePath: string): (r: Result<real, Error>)
    ensures r.Ok? ==>
      (r.value >= 0.0 || (r.value == Missing(rev) as real && sh(Cat(rev, ZoneFile(rev, zonePath, "temp"))) == []))
    ensures r.Err? ==> r.error == NumberFormat && sh(Cat(rev, ZoneFile(rev, zonePath, "temp"))) != []
  {
    match FirstLine(sh(Cat(rev, ZoneFile(rev, zonePath, "temp"))))
    case None => Ok(Missing(rev) as real)
    case Some(line) =>
      match ParseInt32(line)
      case Err(e) => Err(e)
      case Ok(m) => Ok(MilliToDegrees(m))
  }

  /**
   * A temperature file holding milli-degrees reads as degrees clamped at zero, an
   * empty one as the revision's missing value, and anything else that is not an
   * integer throws.
   */
  lemma ZoneTempCases(rev: Revision, sh: Shell, zonePath: string, m: int, line: Line)
    ensures sh(Cat(rev, ZoneFile(rev, zonePath, "temp"))) == [] ==>
      ZoneTemp(rev, sh, zonePath) == Ok(Missing(rev) as real)
    ensures IntMin <= m <= IntMax && FirstLine(sh(Cat(rev, ZoneFile(rev, zonePath, "temp")))) == Some(IntToString(m)) ==>
      ZoneTemp(rev, sh, zonePath) == Ok(if m < 0 then 0.0 else m as real / 1000.0)
    ensures FirstLine(sh(Cat(rev, ZoneFile(rev, zonePath, "temp")))) == Some(line) && ParseInt32(line).Err? ==>
      ZoneTemp(rev, sh, zonePath) == Err(NumberFormat)
  {
    if IntMin <= m <= IntMax {
      ParseInt32RoundTrip(m);
    }
  }

  /** A one-line numeric reading scaled by `unit`; an absent line reads as zero. */
  function Scaled(out: seq<Line>, unit: real): (r: Result<real, Error>)
    requires unit > 0.0
    ensures out == [] ==> r == Ok(0.0)
    ensures r.Err? ==> r.error == NumberFormat && out != []
    ensures out != [] ==> (r.Ok? <==> ParseFloat(out[0]).Ok?)
  {
    match FirstLine(out)
    case None => Ok(0.0)
    case Some(line) =>
      match ParseFloat(line)
      case Err(e) => Err(e)
      case Ok(x) =>
        Ok(x / unit)
  }

  /** `getCPUFrequency`: `scaling_cur_freq` (kHz) over 1e6. */
  function CpuFreq(rev: Revision, sh: Shell, cpuPath: string): (r: Result<real, Error>)
    ensures var out := sh(Cat(rev, cpuPath + "/cpufreq/scaling_cur_freq"));
      r.Ok? && out != [] ==> ParseFloat(out[0]) == Ok(r.value * 1000000.0)
  {
    Scaled(sh(Cat(rev, cpuPath + "/cpufreq/scaling_cur_freq")), 1000000.0)
  }

  /** `getGPUFrequency`: the frequency file over 1000. */
  function GpuFreq(rev: Revision, sh: Shell): (r: Result<real, Error>)
    ensures var out := sh(Cat(rev, GpuFreqTarget(rev)));
      r.Ok? && out != [] ==> ParseFloat(out[0]) == Ok(r.value * 1000.0)
  {
    Scaled(sh(Cat(rev, GpuFreqTarget(rev))), 1000.0)
  }

  /** A reading written as an integer comes back divided by its unit; none reads as 0. */
  lemma ScaledReadsBack(out: seq<Line>, unit: real, n: int)
    requires unit > 0.0
    ensures out == [] ==> Scaled(out, unit) == Ok(0.0)
    ensures FirstLine(out) == Some(IntToString(n)) ==> Scaled(out, unit) == Ok(n as real / unit)
  {
    ParseFloatInteger(n);
  }

  /** The text of `s` before its first `%`, all of it when there is none. */
  function BeforePercent(s: string): (r: string)
    ensures |r| <= |s| && r == s[..|r|] && '%' !in r
  {
    if '%' in s then s[..FirstIndex(s, '%')] else s
  }

  /**
   * `getGPUUtilization`: the text before the first `%`, parsed; absent reads as
   * missing. Splitting leaves nothing to index only when the line is `%` signs.
   */
  function GpuUtil(rev: Revision, sh: Shell): (r: Result<real, Error>)
    ensures sh(Cat(rev, GpuUtilTarget(rev))) == [] ==> r == Ok(Missing(rev) as real)
    ensures sh(Cat(rev, GpuUtilTarget(rev))) != [] && r != Err(IndexOutOfBounds) ==>
      r == ParseFloat(BeforePercent(sh(Cat(rev, GpuUtilTarget(rev)))[0]))
  {
    match FirstLine(sh(Cat(rev, GpuUtilTarget(rev))))
    case None => Ok(Missing(rev) as real)
    case Some(line) =>
      JavaSplitHead(line, '%');
      var parts := JavaSplit(line, '%');
      if |parts| == 0 then Err(IndexOutOfBounds)
      else ParseFloat(parts[0])
  }

  /** A kgsl-style `NN %` or `NN%...` line reads as NN. */
  lemma GpuUtilPercent(rev: Revision, sh: Shell, n: nat, blanks: string, rest: string)
    requires forall k :: 0 <= k < |blanks| ==> IsBlank(blanks[k])
    requires FirstLine(sh(Cat(rev, GpuUtilTarget(rev)))) == Some(NatToString(n) + blanks + "%" + rest)
    ensures GpuUtil(rev, sh) == Ok(n as real)
  {
    var x := NatToString(n) + blanks;
    NoPercent(NatToString(n), blanks);
    SplitFirstPiece(x, '%', rest);
    ParseFloatTrailingBlank(n, blanks);
  }

  lemma NoPercent(d: string, blanks: string)
    requires AllDigits(d)
    requires forall k :: 0 <= k < |blanks| ==> IsBlank(blanks[k])
    ensures '%' !in d + blanks
  {
    forall k | 0 <= k < |d + blanks|
      ensures (d + blanks)[k] != '%'
    {
      if k < |d| {
        assert IsDigit(d[k]);
      } else {
        assert IsBlank(blanks[k - |d|]);
      }
    }
  }

  /** A line made only of a `%` sign leaves nothing to index and throws. */
  lemma GpuUtilBarePercent(rev: Revision, sh: Shell)
    requires FirstLine(sh(Cat(rev, GpuUtilTarget(rev)))) == Some("%")
    ensures GpuUtil(rev, sh) == Err(IndexOutOfBounds)
  {
    assert SplitAll("%", '%') == ["", ""] by {
      assert "%"[1..] == "";
    }
    assert DropTrailingEmpty(["", ""]) == [] by {
      assert ["", ""][..1] == [""];
      assert [""][..0] == [];
    }
  }

  /** The first piece of `x + [sep] + rest` is `x` when `x` is a non-empty separator-free prefix. */
  lemma SplitFirstPiece(x: string, sep: char, rest: string)
    requires |x| > 0 && sep !in x
    ensures |JavaSplit(x + [sep] + rest, sep)| > 0
    ensures JavaSplit(x + [sep] + rest, sep)[0] == x
  {
    var s := x + [sep] + rest;
    assert s[|x|] == sep;
    SplitAllSeam(x, sep, rest);
    var all := SplitAll(s, sep);
    var r := DropTrailingEmpty(all);
    assert all[0] == x != "";
  }

  // ---------------------------------------------------------------------------
  // CPU utilisation from `top`

  const AppMarker := "org.tensorflow"

  /** The first output line mentioning the app. */
  function AppLine(lines: seq<Line>): (r: Option<Line>)
    ensures r.Some? ==> Contains(r.value, AppMarker) && r.value in lines
    ensures r.Some? <==> exists k :: 0 <= k < |lines| && Contains(lines[k], AppMarker)
    ensures r.Some? ==> exists k :: (0 <= k < |lines| && lines[k] == r.value
      && forall j :: 0 <= j < k ==> !Contains(lines[j], AppMarker))
  {
    if |lines| == 0 then None
    else if Contains(lines[0], AppMarker) then Some(lines[0])
    else AppLine(lines[1..])
  }

  /** A `top` row: space runs collapsed, spaces turned into commas, split on commas. */
  function TopFields(line: string): seq<string> {
    JavaSplit(Substitute(Squeeze(line), ' ', ','), ',')
  }

  /** The four-field stand-in used when no row mentions the app. */
  function Sentinel(rev: Revision): seq<string> {
    var v := IntToString(Missing(rev));
    [v, v, v, v]
  }

  /** `getCPUUtilization`: field `size - 4` of the app's row, or of the sentinel. */
  function CpuUtil(rev: Revision, sh: Shell): (r: Result<string, Error>)
    ensures r.Err? <==> AppLine(sh(Top)).Some? && |TopFields(AppLine(sh(Top)).value)| < 4
    ensures r.Err? ==> r.error == IndexOutOfBounds
    ensures AppLine(sh(Top)).None? ==> r == Ok(IntToString(Missing(rev)))
  {
    var fields :=
      match AppLine(sh(Top))
      case None => Sentinel(rev)
      case Some(line) => TopFields(line);
    if |fields| < 4 then Err(IndexOutOfBounds) else Ok(fields[|fields| - 4])
  }

  /** Without a row for the app the reading is the missing value, as text. */
  lemma CpuUtilWithoutApp(rev: Revision, sh: Shell)
    requires forall k :: 0 <= k < |sh(Top)| ==> !Contains(sh(Top)[k], AppMarker)
    ensures CpuUtil(rev, sh) == Ok(IntToString(Missing(rev)))
  {
  }

  method GetCPUUtilization(rev: Revision, sh: Shell) returns (r: Result<string, Error>)
    ensures r == CpuUtil(rev, sh)
  {
    var lines := sh(Top);
    var n := 0;
    while n < |lines| && !Contains(lines[n], AppMarker)
      invariant 0 <= n <= |lines|
      invariant forall j :: 0 <= j < n ==> !Contains(lines[j], AppMarker)
    {
      n := n + 1;
    }
    var fields: seq<string>;
    if n < |lines| {
      assert AppLine(lines) == Some(lines[n]);
      var row := CollapseSpaces(lines[n]);
      row := Substitute(row, ' ', ',');
      fields := JavaSplit(row, ',');
    } else {
      fields := Sentinel(rev);
    }
    if |fields| - 4 < 0 {
      return Err(IndexOutOfBounds);
    }
    return Ok(fields[|fields| - 4]);
  }

  /** The utilisation text never holds a comma or a line break. */
  lemma CpuUtilIsCell(rev: Revision, sh: Shell)
    requires CpuUtil(rev, sh).Ok?
    ensures ',' !in CpuUtil(rev, sh).value && '\n' !in CpuUtil(rev, sh).value
  {
    match AppLine(sh(Top))
    case None =>
      IntToStringIsCell(Missing(rev));
    case Some(line) =>
      SqueezeChars(line, '\n');
      var t := Substitute(Squeeze(line), ' ', ',');
      assert '\n' !in t;
      JavaSplitPieces(t, ',', '\n');
      JavaSplitPieces(t, ',', ',');
  }

  lemma {:induction false} SqueezeChars(s: string, c: char)
    requires c !in s
    ensures c !in Squeeze(s)
    decreases |s|
  {
    if |s| > 0 {
      SqueezeChars(s[1..], c);
    }
  }

  // ---------------------------------------------------------------------------
  // Layout of a `top` row

  function Spaces(n: nat): (r: string)
    ensures |r| == n
    ensures forall k :: 0 <= k < n ==> r[k] == ' '
  {
    seq(n, _ => ' ')
  }

  /**
   * `gaps[0]` spaces, `ws[0]`, `gaps[1]` spaces, ..., `ws[|ws|-1]`, `gaps[|ws|]` spaces.
   */
  function Layout(ws: seq<string>, gaps: seq<nat>): string
    requires |gaps| == |ws| + 1
  {
    if |ws| == 0 then Spaces(gaps[0])
    else Spaces(gaps[0]) + ws[0] + Layout(ws[1..], gaps[1..])
  }

  /** Non-empty words without spaces or commas, separated by at least one space. */
  predicate WellSpaced(ws: seq<string>, gaps: seq<nat>) {
    |gaps| == |ws| + 1 && |ws| > 0 &&
    (forall k :: 0 <= k < |ws| ==> |ws[k]| > 0 && ' ' !in ws[k] && ',' !in ws[k]) &&
    (forall k :: 0 < k < |ws| ==> gaps[k] > 0)
  }

  /** The words with an empty field for a leading and for a trailing space run. */
  function Padded(ws: seq<string>, lead: nat, trail: nat): seq<string> {
    (if lead > 0 then [""] else []) + ws + (if trail > 0 then [""] else [])
  }

  lemma {:induction false} SqueezeSpacesThen(n: nat, x: string)
    requires n > 0 && !StartsWithSpace(x)
    ensures Squeeze(Spaces(n) + x) == " " + Squeeze(x)
  {
    if n == 1 {
      SqueezeCons(' ', x);
      assert Spaces(1) + x == [' '] + x;
    } else {
      SqueezeSpacesThen(n - 1, x);
      assert Spaces(n) + x == [' '] + (Spaces(n - 1) + x);
      SqueezeCons(' ', Spaces(n - 1) + x);
    }
  }

  lemma {:induction false} SqueezeWordThen(w: string, x: string)
    requires ' ' !in w
    ensures Squeeze(w + x) == w + Squeeze(x)
    decreases |w|
  {
    if |w| > 0 {
      var c, v := w[0], w[1..];
      assert w == [c] + v;
      SqueezeWordThen(v, x);
      SqueezeWordStep(c, v, x, Squeeze(x));
    } else {
      assert w + x == x;
    }
  }

  lemma SqueezeWordStep(c: char, v: string, x: string, sx: string)
    requires c != ' ' && Squeeze(v + x) == v + sx
    ensures Squeeze([c] + v + x) == [c] + v + sx
  {
    SqueezeCons(c, v + x);
    AppendAssoc([c], v, x);
    AppendAssoc([c], v, sx);
  }

  lemma {:induction false} SqueezeSpaces(n: nat)
    ensures Squeeze(Spaces(n)) == if n > 0 then " " else ""
  {
    if n > 1 {
      SqueezeSpaces(n - 1);
      assert Spaces(n) == [' '] + Spaces(n - 1);
      SqueezeCons(' ', Spaces(n - 1));
    } else if n == 1 {
      assert Spaces(1) == [' '] + "";
    }
  }

  /** Collapsing a row's space runs leaves the words joined by single spaces. */
  lemma {:induction false} SqueezeLayout(ws: seq<string>, gaps: seq<nat>)
    requires WellSpaced(ws, gaps)
    ensures Squeeze(Layout(ws, gaps)) == Join(Padded(ws, gaps[0], gaps[|ws|]), ' ')
    decreases |ws|, 1
  {
    var body := ws[0] + Layout(ws[1..], gaps[1..]);
    SqueezeBody(ws, gaps);
    assert Layout(ws, gaps) == Spaces(gaps[0]) + body;
    if gaps[0] > 0 {
      SqueezeSpacesThen(gaps[0], body);
      assert Padded(ws, gaps[0], gaps[|ws|]) == [""] + Padded(ws, 0, gaps[|ws|]);
      JoinCons("", Padded(ws, 0, gaps[|ws|]), ' ');
    } else {
      assert Spaces(0) + body == body;
    }
  }

  /** The row after its leading space run: the first word, then the rest laid out. */
  lemma {:induction false} SqueezeBody(ws: seq<string>, gaps: seq<nat>)
    requires WellSpaced(ws, gaps)
    ensures Squeeze(ws[0] + Layout(ws[1..], gaps[1..])) == Join(Padded(ws, 0, gaps[|ws|]), ' ')
    decreases |ws|, 0
  {
    var w := ws[0];
    var tail := Layout(ws[1..], gaps[1..]);
    if |ws| == 1 {
      assert tail == Spaces(gaps[1]);
      SqueezeLastWord(w, gaps[1]);
      assert Padded(ws, 0, gaps[|ws|]) == Padded([w], 0, gaps[1]);
    } else {
      SqueezeWordThen(w, tail);
      SqueezeLayout(ws[1..], gaps[1..]);
      var rest := Padded(ws[1..], 0, gaps[|ws|]);
      assert Padded(ws[1..], gaps[1], gaps[|ws|]) == [""] + rest;
      JoinCons("", rest, ' ');
      assert Padded(ws, 0, gaps[|ws|]) == [w] + rest;
      JoinCons(w, rest, ' ');
    }
  }

  /** The last word and its trailing space run. */
  lemma SqueezeLastWord(w: string, n: nat)
    requires ' ' !in w
    ensures Squeeze(w + Spaces(n)) == Join(Padded([w], 0, n), ' ')
  {
    SqueezeWordThen(w, Spaces(n));
    SqueezeSpaces(n);
    if n > 0 {
      assert Padded([w], 0, n) == [w] + [""];
      JoinSnoc([w], "", ' ');
    } else {
      assert Padded([w], 0, n) == [w];
    }
  }

  lemma {:induction false} SubstituteJoin(xs: seq<string>)
    requires |xs| > 0
    requires forall k :: 0 <= k < |xs| ==> ' ' !in xs[k]
    ensures Substitute(Join(xs, ' '), ' ', ',') == Join(xs, ',')
  {
    if |xs| == 1 {
      assert Substitute(xs[0], ' ', ',') == xs[0];
    } else {
      SubstituteJoin(xs[1..]);
      SubstituteConcat(xs[0] + " ", Join(xs[1..], ' '), ' ', ',');
      SubstituteConcat(xs[0], " ", ' ', ',');
      assert Substitute(xs[0], ' ', ',') == xs[0];
    }
  }

  lemma PaddedFree(ws: seq<string>, lead: nat, trail: nat, c: char)
    requires forall k :: 0 <= k < |ws| ==> c !in ws[k]
    ensures forall k :: 0 <= k < |Padded(ws, lead, trail)| ==> c !in Padded(ws, lead, trail)[k]
  {
  }

  /** Splitting the comma-joined padded words drops only the trailing empty field. */
  lemma SplitPadded(ws: seq<string>, lead: nat, trail: nat)
    requires |ws| > 0 && ws[|ws| - 1] != ""
    requires forall k :: 0 <= k < |ws| ==> ',' !in ws[k]
    ensures JavaSplit(Join(Padded(ws, lead, trail), ','), ',') == (if lead > 0 then [""] else []) + ws
  {
    var padded := Padded(ws, lead, trail);
    var front := (if lead > 0 then [""] else []) + ws;
    PaddedFree(ws, lead, trail, ',');
    SplitJoin(padded, ',');
    assert front[|front| - 1] == ws[|ws| - 1];
    if |padded| > 1 {
      JoinHasSep(padded, ',');
      if trail > 0 {
        assert padded == front + [""];
        assert padded[..|padded| - 1] == front;
      } else {
        assert padded == front;
      }
    } else {
      assert padded == ws == front;
    }
  }

  /**
   * The `top` parse recovers a row's words, with one empty field in front when the
   * row starts with spaces; trailing spaces leave no field.
   */
  lemma TopFieldsLayout(ws: seq<string>, gaps: seq<nat>)
    requires WellSpaced(ws, gaps)
    ensures TopFields(Layout(ws, gaps)) == (if gaps[0] > 0 then [""] else []) + ws
  {
    var padded := Padded(ws, gaps[0], gaps[|ws|]);
    SqueezeLayout(ws, gaps);
    PaddedFree(ws, gaps[0], gaps[|ws|], ' ');
    SubstituteJoin(padded);
    SplitPadded(ws, gaps[0], gaps[|ws|]);
  }

  /** So the utilisation read is the fourth word from the end of the app's row. */
  lemma CpuUtilPicksFourthFromEnd(rev: Revision, sh: Shell, ws: seq<string>, gaps: seq<nat>)
    requires WellSpaced(ws, gaps) && |ws| >= 4
    requires AppLine(sh(Top)) == Some(Layout(ws, gaps))
    ensures CpuUtil(rev, sh) == Ok(ws[|ws| - 4])
  {
    TopFieldsLayout(ws, gaps);
  }
}
