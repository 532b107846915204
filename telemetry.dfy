/**
 * One collection cycle, shared by the three revisions of the collector: read every
 * discovered zone, sort the readings into domains, average them, read frequencies
 * and utilisations, and lay the results out as the fields of one CSV record.
 */
module Telemetry {
  import opened Wrappers
  import opened Text
  import opened Sysfs
  import opened Csv

  // ---------------------------------------------------------------------------
  // Sums, counts and means

  /** A running `float` sum and the `int` count of readings that went into it. */
  datatype Tally = Tally(sum: real, count: nat)

  function Add(t: Tally, x: real): Tally {
    Tally(t.sum + x, t.count + 1)
  }

  /** `sum /= count`: a quotient, or NaN for `0f / 0` when nothing was counted. */
  function Mean(t: Tally): (r: Num)
    requires t.count == 0 ==> t.sum == 0.0
    ensures r.NaN? <==> t.count == 0
    ensures r.Val? ==> r.x * (t.count as real) == t.sum
  {
    if t.count == 0 then NaN else Val(t.sum / t.count as real)
  }

  // ---------------------------------------------------------------------------
  // Sorting zones into domains

  /** The first of `classes` whose name the type text contains. */
  function Classify(t: string, classes: seq<Domain>): (r: Option<Domain>)
    ensures r.None? <==> !NamesAny(t, classes)
    ensures r.Some? ==> exists k :: (0 <= k < |classes| && classes[k] == r.value
      && Contains(t, DomainName(r.value))
      && forall j :: 0 <= j < k ==> !Contains(t, DomainName(classes[j])))
    decreases |classes|
  {
    if |classes| == 0 then None
    else if Contains(t, DomainName(classes[0])) then Some(classes[0])
    else
      var r := Classify(t, classes[1..]);
      assert NamesAny(t, classes) <==> NamesAny(t, classes[1..]) by {
        if NamesAny(t, classes) {
          var k :| 0 <= k < |classes| && Contains(t, DomainName(classes[k]));
          assert classes[1..][k - 1] == classes[k];
        }
        if NamesAny(t, classes[1..]) {
          var k :| 0 <= k < |classes[1..]| && Contains(t, DomainName(classes[1..][k]));
          assert classes[k + 1] == classes[1..][k];
        }
      }
      assert r.Some? ==> exists k :: (0 <= k < |classes| && classes[k] == r.value
        && Contains(t, DomainName(r.value))
        && forall j :: 0 <= j < k ==> !Contains(t, DomainName(classes[j]))) by {
        if r.Some? {
          var k :| 0 <= k < |classes[1..]| && classes[1..][k] == r.value
            && Contains(t, DomainName(r.value))
            && forall j :: 0 <= j < k ==> !Contains(t, DomainName(classes[1..][j]));
          assert classes[k + 1] == r.value;
          assert forall j :: 0 <= j < k + 1 ==> !Contains(t, DomainName(classes[j])) by {
            forall j | 0 <= j < k + 1
              ensures !Contains(t, DomainName(classes[j]))
            {
              if j > 0 {
                assert classes[j] == classes[1..][j - 1];
              }
            }
          }
        }
      }
      r
  }

  /** One step of `Classify`: the head class, or the rest of the list. */
  lemma ClassifyCons(t: string, d: Domain, rest: seq<Domain>)
    ensures Classify(t, [d] + rest) == if Contains(t, DomainName(d)) then Some(d) else Classify(t, rest)
  {
    assert ([d] + rest)[1..] == rest;
  }

  /** The per-cycle `if … else if …` chain, tried in the order of the revision's classes. */
  lemma ClassifyChain(rev: Revision, t: string)
    ensures Classify(t, Classes(rev)) ==
      if Contains(t, "cpu") then Some(Cpu)
      else if Contains(t, "gpu") then Some(Gpu)
      else if Contains(t, "npu") then Some(Npu)
      else if rev.DataProcessorRev? && Contains(t, "tpu") then Some(Tpu)
      else None
  {
    var last: seq<Domain> := if rev.DataProcessorRev? then [Tpu] else [];
    assert Classes(rev) == [Cpu] + ([Gpu] + ([Npu] + last));
    ClassifyCons(t, Cpu, [Gpu] + ([Npu] + last));
    ClassifyCons(t, Gpu, [Npu] + last);
    ClassifyCons(t, Npu, last);
    if rev.DataProcessorRev? {
      ClassifyCons(t, Tpu, []);
    }
  }

  /**
   * A type spelt `CPU` passes the latest revision's case-folding discovery but
   * feeds no domain, because the per-cycle chain matches the raw text.
   */
  lemma CaseOnlyZoneFeedsNothing(rooted: bool)
    ensures Tracked(DataProcessorRev(rooted), "CPU")
    ensures Classify("CPU", Classes(DataProcessorRev(rooted))) == None
  {
    assert Lower("CPU") == "cpu";
    assert OccursAt(Lower("CPU"), DomainName(Interest[0]), 0);
    ClassifyChain(DataProcessorRev(rooted), "CPU");
    forall p: string | |p| == 3 && p[0] != 'C'
      ensures !Contains("CPU", p)
    {
      assert !OccursAt("CPU", p, 0);
    }
  }

  // ---------------------------------------------------------------------------
  // What a cycle reads

  /**
   * The readers one cycle calls: a zone's temperature and type, a core's frequency,
   * and the GPU frequency and both utilisations. A reader that parses a number may
   * throw; the cycle does not catch that.
   */
  datatype Probes = Probes(
    temp: string -> Result<real, Error>,
    zoneType: string -> string,
    coreFreq: string -> Result<real, Error>,
    gpuFreq: Result<real, Error>,
    cpuUtil: Result<Cell, Error>,
    gpuUtil: Result<real, Error>)

  /** The CPU share from `top`, which never holds a comma or a line break. */
  function CpuUtilCell(rev: Revision, sh: Shell): (r: Result<Cell, Error>)
    ensures r.Ok? <==> CpuUtil(rev, sh).Ok?
    ensures r.Ok? ==> r.value == CpuUtil(rev, sh).value
  {
    match CpuUtil(rev, sh)
    case Err(e) => Err(e)
    case Ok(c) =>
      CpuUtilIsCell(rev, sh);
      Ok(c)
  }

  /** The readers of a revision on a device whose commands `sh` answers. */
  function DeviceProbes(rev: Revision, sh: Shell): Probes {
    Probes(z => ZoneTemp(rev, sh, z), z => ZoneType(rev, sh, z), c => CpuFreq(rev, sh, c),
      GpuFreq(rev, sh), CpuUtilCell(rev, sh), GpuUtil(rev, sh))
  }

  /** The zones a revision discovers under `/sys/class/thermal`. */
  function DiscoveredZones(rev: Revision, sh: Shell): seq<string> {
    ZonePaths(ThermalDir, sh(List(rev, ThermalDir, "thermal_zone")), KeptBy(rev, sh, ThermalDir))
  }

  /** The cores a revision discovers under `/sys/devices/system/cpu`. */
  function DiscoveredCores(rev: Revision, sh: Shell): seq<string> {
    CpuDevicePaths(CpuDir, sh(List(rev, CpuDir, CpuPattern(rev))))
  }

  /** `<folder>/Performance_Measurements<series>.csv`. */
  function PerformanceFile(folder: string, series: string): string {
    folder + "/" + "Performance_Measurements" + series + ".csv"
  }

  // ---------------------------------------------------------------------------
  // Zone readings

  /** One zone's temperature and the type text read for it in the same pass. */
  datatype Sample = Sample(temp: real, zoneType: string)

  /**
   * The pass over the zones: each zone's temperature, then its type. The first
   * temperature that throws ends the cycle.
   */
  function ReadSamples(p: Probes, zones: seq<string>): Result<seq<Sample>, Error> {
    if |zones| == 0 then Ok([])
    else
      match ReadSamples(p, zones[..|zones| - 1])
      case Err(e) => Err(e)
      case Ok(ss) =>
        var last := zones[|zones| - 1];
        match p.temp(last)
        case Err(e) => Err(e)
        case Ok(temp) => Ok(ss + [Sample(temp, p.zoneType(last))])
  }

  /** The pass succeeds iff every temperature parses, and then holds one sample per zone, in order. */
  lemma {:induction false} ReadSamplesReadsEach(p: Probes, zones: seq<string>)
    ensures ReadSamples(p, zones).Ok? <==> forall k :: 0 <= k < |zones| ==> p.temp(zones[k]).Ok?
    ensures ReadSamples(p, zones).Ok? ==> |ReadSamples(p, zones).value| == |zones|
    ensures ReadSamples(p, zones).Ok? ==> forall k :: 0 <= k < |zones| ==>
      p.temp(zones[k]) == Ok(ReadSamples(p, zones).value[k].temp)
      && ReadSamples(p, zones).value[k].zoneType == p.zoneType(zones[k])
  {
    if |zones| > 0 {
      var init := zones[..|zones| - 1];
      ReadSamplesReadsEach(p, init);
      assert forall k :: 0 <= k < |init| ==> zones[k] == init[k];
    }
  }

  /** The error of the first zone whose temperature throws. */
  lemma {:induction false} ReadSamplesFirstError(p: Probes, zones: seq<string>, k: nat)
    requires k < |zones| && p.temp(zones[k]).Err?
    requires forall j :: 0 <= j < k ==> p.temp(zones[j]).Ok?
    ensures ReadSamples(p, zones) == Err(p.temp(zones[k]).error)
    decreases |zones|
  {
    var init := zones[..|zones| - 1];
    if k < |zones| - 1 {
      assert init[k] == zones[k];
      assert forall j :: 0 <= j < k ==> init[j] == zones[j];
      ReadSamplesFirstError(p, init, k);
    } else {
      assert forall j :: 0 <= j < |init| ==> init[j] == zones[j];
      ReadSamplesReadsEach(p, init);
    }
  }

  lemma ReadSamplesStep(p: Probes, zones: seq<string>, n: nat)
    requires n < |zones| && ReadSamples(p, zones[..n]).Ok? && p.temp(zones[n]).Ok?
    ensures ReadSamples(p, zones[..n + 1])
      == Ok(ReadSamples(p, zones[..n]).value + [Sample(p.temp(zones[n]).value, p.zoneType(zones[n]))])
  {
    assert zones[..n + 1][..n] == zones[..n];
  }

  lemma ReadSamplesStop(p: Probes, zones: seq<string>, n: nat)
    requires n < |zones| && ReadSamples(p, zones[..n]).Ok? && p.temp(zones[n]).Err?
    ensures ReadSamples(p, zones) == Err(p.temp(zones[n]).error)
  {
    ReadSamplesReadsEach(p, zones[..n]);
    forall j | 0 <= j < n
      ensures p.temp(zones[j]).Ok?
    {
      assert zones[..n][j] == zones[j];
    }
    ReadSamplesFirstError(p, zones, n);
  }

  /** The tally a cycle keeps for domain `d`. */
  function TallyOf(ss: seq<Sample>, classes: seq<Domain>, d: Domain): (t: Tally)
    ensures t.count <= |ss|
    ensures t.count == 0 ==> t.sum == 0.0
  {
    if |ss| == 0 then Tally(0.0, 0)
    else
      var t := TallyOf(ss[..|ss| - 1], classes, d);
      var s := ss[|ss| - 1];
      if Classify(s.zoneType, classes) == Some(d) then Add(t, s.temp) else t
  }

  /** How many readings fed some domain. */
  function ClassifiedCount(ss: seq<Sample>, classes: seq<Domain>): (n: nat)
    ensures n <= |ss|
  {
    if |ss| == 0 then 0
    else
      var last := if Classify(ss[|ss| - 1].zoneType, classes).Some? then 1 else 0;
      ClassifiedCount(ss[..|ss| - 1], classes) + last
  }

  /** Every reading feeds at most one domain: the four counts add up to the classified ones. */
  lemma {:induction false} EachReadingCountedOnce(ss: seq<Sample>, classes: seq<Domain>)
    ensures TallyOf(ss, classes, Cpu).count + TallyOf(ss, classes, Gpu).count
      + TallyOf(ss, classes, Npu).count + TallyOf(ss, classes, Tpu).count
      == ClassifiedCount(ss, classes)
  {
    if |ss| > 0 {
      EachReadingCountedOnce(ss[..|ss| - 1], classes);
    }
  }

  /** A reading whose type names none of the classes changes no tally. */
  lemma UnclassifiedIgnored(ss: seq<Sample>, s: Sample, classes: seq<Domain>, d: Domain)
    requires !NamesAny(s.zoneType, classes)
    ensures TallyOf(ss + [s], classes, d) == TallyOf(ss, classes, d)
  {
    assert (ss + [s])[..|ss|] == ss;
  }

  // ---------------------------------------------------------------------------
  // The thermal list

  /** The type headers text: `<name>Temperature,` for each domain, in order. */
  function TypeHeader(d: Domain): string {
    DomainName(d) + "Temperature,"
  }

  function TypeHeaders(ds: seq<Domain>): string {
    if |ds| == 0 then "" else TypeHeaders(ds[..|ds| - 1]) + TypeHeader(ds[|ds| - 1])
  }

  /** The constructor's `StringBuilder` loop over the domains of interest. */
  method BuildTypeHeaders(ds: seq<Domain>) returns (h: string)
    ensures h == TypeHeaders(ds)
  {
    h := "";
    for n := 0 to |ds|
      invariant h == TypeHeaders(ds[..n])
    {
      assert ds[..n + 1][..n] == ds[..n];
      h := h + DomainName(ds[n]) + "Temperature,";
    }
    assert ds[..|ds|] == ds;
  }

  /** One header names exactly its own domain. */
  lemma TypeHeaderNames(d: Domain, e: Domain)
    ensures Contains(TypeHeader(d), DomainName(e)) <==> d == e
  {
    var s := TypeHeader(d);
    var p := DomainName(e);
    if d == e {
      assert OccursAt(s, p, 0);
    }
    if Contains(s, p) {
      var i :| 0 <= i <= |s| - |p| && OccursAt(s, p, i);
      assert p[1] == p[1..][0] == 'p' && p[2] == p[1..][1] == 'u';
      assert s[i + 1] == s[i..i + 3][1] == p[1] && s[i + 2] == s[i..i + 3][2] == p[2];
      NoLaterPu(d);
      assert i == 0;
      assert s[0] == p[0];
      DomainNameInjective(d, e);
    }
  }

  /** Past the name itself, a header has no `pu`. */
  lemma NoLaterPu(d: Domain)
    ensures forall j :: 2 <= j < |TypeHeader(d)| - 1 ==> !(TypeHeader(d)[j] == 'p' && TypeHeader(d)[j + 1] == 'u')
  {
    var s := TypeHeader(d);
    var t := "Temperature,";
    assert s[3..] == t;
    forall j | 2 <= j < |s| - 1
      ensures !(s[j] == 'p' && s[j + 1] == 'u')
    {
      assert s[j + 1] == t[j - 2];
    }
  }

  lemma {:induction false} TypeHeadersEndInComma(ds: seq<Domain>)
    requires |ds| > 0
    ensures |TypeHeaders(ds)| > 0 && TypeHeaders(ds)[|TypeHeaders(ds)| - 1] == ','
  {
  }

  /** The headers text mentions a domain's name iff that domain is listed. */
  lemma {:induction false} TypeHeadersMention(ds: seq<Domain>, e: Domain)
    ensures Contains(TypeHeaders(ds), DomainName(e)) <==> e in ds
  {
    if |ds| > 0 {
      var init := ds[..|ds| - 1];
      var last := ds[|ds| - 1];
      TypeHeadersMention(init, e);
      if |init| > 0 {
        TypeHeadersEndInComma(init);
      }
      MentionStep(TypeHeaders(init), last, e);
      assert ds == init + [last];
    }
  }

  /** Appending one header after a comma adds a mention of that header's domain only. */
  lemma MentionStep(a: string, d: Domain, e: Domain)
    requires |a| == 0 || a[|a| - 1] == ','
    ensures Contains(a + TypeHeader(d), DomainName(e)) <==> Contains(a, DomainName(e)) || d == e
  {
    TypeHeaderNames(d, e);
    assert ',' !in DomainName(e);
    ContainsSplit(a, TypeHeader(d), DomainName(e));
  }

  /** Whether a revision emits a mean for `d`, given the headers text it checks. */
  predicate Emits(rev: Revision, validZones: string, d: Domain) {
    if rev.DataProcessorRev? then Contains(validZones, DomainName(d)) else d != Tpu
  }

  /** The four accumulators of one cycle. */
  datatype Tallies = Tallies(cpu: Tally, gpu: Tally, npu: Tally, tpu: Tally)
  {
    predicate Valid() {
      (cpu.count == 0 ==> cpu.sum == 0.0) && (gpu.count == 0 ==> gpu.sum == 0.0)
      && (npu.count == 0 ==> npu.sum == 0.0) && (tpu.count == 0 ==> tpu.sum == 0.0)
    }

    function Of(d: Domain): Tally {
      match d
      case Cpu => cpu
      case Gpu => gpu
      case Npu => npu
      case Tpu => tpu
    }
  }

  function TalliesOf(ss: seq<Sample>, classes: seq<Domain>): (ts: Tallies)
    ensures ts.Valid()
  {
    Tallies(TallyOf(ss, classes, Cpu), TallyOf(ss, classes, Gpu), TallyOf(ss, classes, Npu), TallyOf(ss, classes, Tpu))
  }

  function MeanField(ts: Tallies, d: Domain): Field
    requires ts.Valid()
  {
    Numeric(Mean(ts.Of(d)))
  }

  function EmitIf(b: bool, f: Field): seq<Field> {
    if b then [f] else []
  }

  /** The status, then one mean per domain the revision emits, in domain order. */
  function ThermalList(rev: Revision, status: Cell, ts: Tallies, validZones: string): seq<Field>
    requires ts.Valid()
  {
    [Textual(status)]
      + EmitIf(Emits(rev, validZones, Cpu), MeanField(ts, Cpu))
      + EmitIf(Emits(rev, validZones, Gpu), MeanField(ts, Gpu))
      + EmitIf(Emits(rev, validZones, Npu), MeanField(ts, Npu))
      + EmitIf(Emits(rev, validZones, Tpu), MeanField(ts, Tpu))
  }

  /**
   * With the headers the constructor builds, every revision emits the status and the
   * cpu, gpu and npu means: four entries. The latest revision sorts readings into a
   * tpu tally that it never emits.
   */
  lemma ThermalListShape(rev: Revision, status: Cell, ts: Tallies, validZones: string)
    requires ts.Valid()
    requires rev.DataProcessorRev? ==> validZones == TypeHeaders(Interest)
    ensures ThermalList(rev, status, ts, validZones)
      == [Textual(status), MeanField(ts, Cpu), MeanField(ts, Gpu), MeanField(ts, Npu)]
  {
    if rev.DataProcessorRev? {
      TypeHeadersMention(Interest, Cpu);
      TypeHeadersMention(Interest, Gpu);
      TypeHeadersMention(Interest, Npu);
      TypeHeadersMention(Interest, Tpu);
    }
  }

  /** The pass over the zones as tallies, or the first parse error. */
  function ZoneTallies(rev: Revision, p: Probes, zones: seq<string>): (r: Result<Tallies, Error>)
    ensures r.Ok? <==> ReadSamples(p, zones).Ok?
    ensures r.Ok? ==> r.value.Valid()
  {
    match ReadSamples(p, zones)
    case Err(e) => Err(e)
    case Ok(ss) => Ok(TalliesOf(ss, Classes(rev)))
  }

  /** `processThermalData`: the status, then the emitted means, or the first parse error. */
  function ThermalData(rev: Revision, p: Probes, zones: seq<string>, status: Cell, validZones: string)
    : (r: Result<seq<Field>, Error>)
    ensures r.Ok? <==> forall k :: 0 <= k < |zones| ==> p.temp(zones[k]).Ok?
    ensures r.Ok? ==> 1 <= |r.value| <= 5 && r.value[0] == Textual(status)
  {
    ReadSamplesReadsEach(p, zones);
    match ZoneTallies(rev, p, zones)
    case Err(e) => Err(e)
    case Ok(ts) => Ok(ThermalList(rev, status, ts, validZones))
  }

  /** `processThermalData`: the accumulator loop, then the emission. */
  method ProcessThermalData(rev: Revision, p: Probes, zones: seq<string>, status: Cell, validZones: string)
    returns (r: Result<seq<Field>, Error>)
    ensures r == ThermalData(rev, p, zones, status, validZones)
  {
    var ts := SumZones(rev, p, zones);
    if ts.Err? {
      return Err(ts.error);
    }
    var list := EmitMeans(rev, status, ts.value, validZones);
    return Ok(list);
  }

  /** One reading added to the tally of the domain it was sorted into, if any. */
  function Feed(ts: Tallies, x: real, d: Option<Domain>): Tallies {
    match d
    case None => ts
    case Some(Cpu) => ts.(cpu := Add(ts.cpu, x))
    case Some(Gpu) => ts.(gpu := Add(ts.gpu, x))
    case Some(Npu) => ts.(npu := Add(ts.npu, x))
    case Some(Tpu) => ts.(tpu := Add(ts.tpu, x))
  }

  lemma TalliesStep(ss: seq<Sample>, s: Sample, classes: seq<Domain>)
    ensures TalliesOf(ss + [s], classes) == Feed(TalliesOf(ss, classes), s.temp, Classify(s.zoneType, classes))
  {
    assert (ss + [s])[..|ss|] == ss;
  }

  /** The loop over the zones, one sum and count per domain. */
  method SumZones(rev: Revision, p: Probes, zones: seq<string>) returns (r: Result<Tallies, Error>)
    ensures r == ZoneTallies(rev, p, zones)
  {
    var cpu, gpu, npu, tpu := Tally(0.0, 0), Tally(0.0, 0), Tally(0.0, 0), Tally(0.0, 0);
    ghost var ss: seq<Sample> := [];
    var n := 0;
    while n < |zones|
      invariant 0 <= n <= |zones|
      invariant ReadSamples(p, zones[..n]) == Ok(ss)
      invariant Tallies(cpu, gpu, npu, tpu) == TalliesOf(ss, Classes(rev))
    {
      var temp := p.temp(zones[n]);
      if temp.Err? {
        ReadSamplesStop(p, zones, n);
        return Err(temp.error);
      }
      var zoneType := p.zoneType(zones[n]);
      cpu, gpu, npu, tpu := FeedReading(rev, cpu, gpu, npu, tpu, temp.value, zoneType);
      ReadSamplesStep(p, zones, n);
      TalliesStep(ss, Sample(temp.value, zoneType), Classes(rev));
      ss := ss + [Sample(temp.value, zoneType)];
      n := n + 1;
    }
    assert zones[..n] == zones;
    return Ok(Tallies(cpu, gpu, npu, tpu));
  }

  /** The `if … else if …` chain that adds one reading to the first domain its type names. */
  method FeedReading(rev: Revision, cpu0: Tally, gpu0: Tally, npu0: Tally, tpu0: Tally, x: real, zoneType: string)
    returns (cpu: Tally, gpu: Tally, npu: Tally, tpu: Tally)
    ensures Tallies(cpu, gpu, npu, tpu) == Feed(Tallies(cpu0, gpu0, npu0, tpu0), x, Classify(zoneType, Classes(rev)))
  {
    cpu, gpu, npu, tpu := cpu0, gpu0, npu0, tpu0;
    ClassifyChain(rev, zoneType);
    if Contains(zoneType, "cpu") {
      cpu := Add(cpu, x);
    } else if Contains(zoneType, "gpu") {
      gpu := Add(gpu, x);
    } else if Contains(zoneType, "npu") {
      npu := Add(npu, x);
    } else if rev.DataProcessorRev? && Contains(zoneType, "tpu") {
      tpu := Add(tpu, x);
    }
  }

  /** The emission: the status, then a mean for each domain the revision emits. */
  method EmitMeans(rev: Revision, status: Cell, ts: Tallies, validZones: string) returns (list: seq<Field>)
    requires ts.Valid()
    ensures list == ThermalList(rev, status, ts, validZones)
  {
    var e1 := EmitIf(Emits(rev, validZones, Cpu), MeanField(ts, Cpu));
    var e2 := EmitIf(Emits(rev, validZones, Gpu), MeanField(ts, Gpu));
    var e3 := EmitIf(Emits(rev, validZones, Npu), MeanField(ts, Npu));
    var e4 := EmitIf(Emits(rev, validZones, Tpu), MeanField(ts, Tpu));
    list := [Textual(status)];
    if rev.DataProcessorRev? {
      if Contains(validZones, "cpu") {
        list := list + [Numeric(Mean(ts.cpu))];
      }
      assert list == [Textual(status)] + e1;
      if Contains(validZones, "gpu") {
        list := list + [Numeric(Mean(ts.gpu))];
      }
      assert list == [Textual(status)] + e1 + e2;
      if Contains(validZones, "npu") {
        list := list + [Numeric(Mean(ts.npu))];
      }
      assert list == [Textual(status)] + e1 + e2 + e3;
      if Contains(validZones, "tpu") {
        list := list + [Numeric(Mean(ts.tpu))];
      }
      assert list == [Textual(status)] + e1 + e2 + e3 + e4;
    } else {
      list := list + [Numeric(Mean(ts.cpu)), Numeric(Mean(ts.gpu)), Numeric(Mean(ts.npu))];
      assert list == [Textual(status)] + e1 + e2 + e3 + e4;
    }
  }

  // ---------------------------------------------------------------------------
  // Frequencies

  /** The per-core CPU frequencies summed in core order, or the first parse error. */
  function CoreFreqSum(p: Probes, cores: seq<string>): Result<real, Error> {
    if |cores| == 0 then Ok(0.0)
    else
      match CoreFreqSum(p, cores[..|cores| - 1])
      case Err(e) => Err(e)
      case Ok(sum) =>
        match p.coreFreq(cores[|cores| - 1])
        case Err(e) => Err(e)
        case Ok(x) => Ok(sum + x)
  }

  /** The sum exists iff every core's reading parses. */
  lemma {:induction false} CoreFreqSumReadsEach(p: Probes, cores: seq<string>)
    ensures CoreFreqSum(p, cores).Ok? <==> forall k :: 0 <= k < |cores| ==> p.coreFreq(cores[k]).Ok?
  {
    if |cores| > 0 {
      var init := cores[..|cores| - 1];
      CoreFreqSumReadsEach(p, init);
      assert forall k :: 0 <= k < |init| ==> init[k] == cores[k];
    }
  }

  /** `processFrequencyData`: the mean core frequency (NaN without cores), then the GPU's. */
  function FrequencyData(p: Probes, cores: seq<string>): (r: Result<seq<Num>, Error>)
    ensures r.Ok? <==> (forall k :: 0 <= k < |cores| ==> p.coreFreq(cores[k]).Ok?) && p.gpuFreq.Ok?
    ensures r.Ok? ==> |r.value| == 2 && r.value[1] == Val(p.gpuFreq.value)
    ensures r.Err? && p.gpuFreq.Ok? ==> CoreFreqSum(p, cores) == Err(r.error)
  {
    CoreFreqSumReadsEach(p, cores);
    match CoreFreqSum(p, cores)
    case Err(e) => Err(e)
    case Ok(sum) =>
      match p.gpuFreq
      case Err(e) => Err(e)
      case Ok(g) => Ok([Mean(Tally(sum, |cores|)), Val(g)])
  }

  /** The mean is NaN exactly when no core was found, and otherwise times the count gives the sum. */
  lemma FrequencyMean(p: Probes, cores: seq<string>)
    requires FrequencyData(p, cores).Ok?
    ensures |FrequencyData(p, cores).value| == 2
    ensures FrequencyData(p, cores).value[0].NaN? <==> |cores| == 0
    ensures |cores| > 0 ==>
      FrequencyData(p, cores).value[0].x * |cores| as real == CoreFreqSum(p, cores).value
  {
  }

  /** Cores whose frequency files are all empty average to zero. */
  lemma {:induction false} SilentCoresSumToZero(rev: Revision, sh: Shell, cores: seq<string>)
    requires forall k :: 0 <= k < |cores| ==> sh(Cat(rev, cores[k] + "/cpufreq/scaling_cur_freq")) == []
    ensures CoreFreqSum(DeviceProbes(rev, sh), cores) == Ok(0.0)
  {
    if |cores| > 0 {
      var init := cores[..|cores| - 1];
      assert forall k :: 0 <= k < |init| ==> init[k] == cores[k];
      SilentCoresSumToZero(rev, sh, init);
    }
  }

  /** The loop of `processFrequencyData`, then the GPU reading. */
  method ProcessFrequencyData(p: Probes, cores: seq<string>) returns (r: Result<seq<Num>, Error>)
    ensures r == FrequencyData(p, cores)
  {
    var sum := 0.0;
    for n := 0 to |cores|
      invariant CoreFreqSum(p, cores[..n]) == Ok(sum)
    {
      var f := p.coreFreq(cores[n]);
      assert cores[..n + 1][..n] == cores[..n];
      if f.Err? {
        CoreFreqStop(p, cores, n);
        return Err(f.error);
      }
      sum := sum + f.value;
    }
    assert cores[..|cores|] == cores;
    var avg := Mean(Tally(sum, |cores|));
    var g := p.gpuFreq;
    if g.Err? {
      return Err(g.error);
    }
    return Ok([avg, Val(g.value)]);
  }

  lemma CoreFreqStop(p: Probes, cores: seq<string>, n: nat)
    requires n < |cores| && CoreFreqSum(p, cores[..n]).Ok? && p.coreFreq(cores[n]).Err?
    ensures CoreFreqSum(p, cores) == Err(p.coreFreq(cores[n]).error)
  {
    CoreFreqSumReadsEach(p, cores[..n]);
    forall j | 0 <= j < n
      ensures p.coreFreq(cores[j]).Ok?
    {
      assert cores[..n][j] == cores[j];
    }
    CoreFreqFirstError(p, cores, n);
  }

  lemma {:induction false} CoreFreqFirstError(p: Probes, cores: seq<string>, k: nat)
    requires k < |cores| && p.coreFreq(cores[k]).Err?
    requires forall j :: 0 <= j < k ==> p.coreFreq(cores[j]).Ok?
    ensures CoreFreqSum(p, cores) == Err(p.coreFreq(cores[k]).error)
    decreases |cores|
  {
    var init := cores[..|cores| - 1];
    if k < |cores| - 1 {
      assert init[k] == cores[k];
      assert forall j :: 0 <= j < k ==> init[j] == cores[j];
      CoreFreqFirstError(p, init, k);
    } else {
      assert forall j :: 0 <= j < |init| ==> init[j] == cores[j];
      CoreFreqSumReadsEach(p, init);
    }
  }

  // ---------------------------------------------------------------------------
  // Utilisation

  /** `processUtilizationData`: the CPU share from `top` as text, then the GPU busy figure. */
  function UtilizationData(p: Probes): (r: Result<seq<Field>, Error>)
    ensures r.Ok? <==> p.cpuUtil.Ok? && p.gpuUtil.Ok?
    ensures r.Err? ==> r.error == if p.cpuUtil.Err? then p.cpuUtil.error else p.gpuUtil.error
    ensures r.Ok? ==> |r.value| == 2 && r.value[0] == Textual(p.cpuUtil.value)
  {
    match p.cpuUtil
    case Err(e) => Err(e)
    case Ok(c) =>
      match p.gpuUtil
      case Err(e) => Err(e)
      case Ok(g) => Ok([Textual(c), Numeric(Val(g))])
  }

  // ---------------------------------------------------------------------------
  // One cycle's record

  /** How many fields a revision's record has. */
  function Width(rev: Revision): nat {
    if rev.PFManagerRev? then 7 else 9
  }

  /**
   * The record laid out from the lists, or `None` when indexing a list throws
   * IndexOutOfBoundsException (caught, so nothing is written).
   */
  function RecordFields(rev: Revision, time: Cell, thermal: seq<Field>, freqs: seq<Num>, utils: seq<Field>)
    : (r: Option<seq<Field>>)
    ensures r.Some? ==> |r.value| == Width(rev) && r.value[0] == Textual(time)
    ensures r.Some? <==> |thermal| >= 4 && |freqs| >= 2 && (rev.PFManagerRev? || |utils| >= 2)
  {
    if |thermal| < 4 || |freqs| < 2 || (!rev.PFManagerRev? && |utils| < 2) then None
    else
      Some([Textual(time)] + thermal[..4] + [Numeric(freqs[0]), Numeric(freqs[1])]
        + (if rev.PFManagerRev? then [] else utils[..2]))
  }

  /**
   * `processDataCollection` up to the write: the lists are built outside the `try`,
   * so a parse error ends the cycle; `Ok(None)` is a record that failed to build.
   */
  function Cycle(rev: Revision, p: Probes, zones: seq<string>, cores: seq<string>, status: Cell,
                 validZones: string, time: Cell): Result<Option<seq<Field>>, Error>
  {
    match ThermalData(rev, p, zones, status, validZones)
    case Err(e) => Err(e)
    case Ok(thermal) =>
      match FrequencyData(p, cores)
      case Err(e) => Err(e)
      case Ok(freqs) =>
        if rev.PFManagerRev? then Ok(RecordFields(rev, time, thermal, freqs, []))
        else
          match UtilizationData(p)
          case Err(e) => Err(e)
          case Ok(utils) => Ok(RecordFields(rev, time, thermal, freqs, utils))
  }

  /** The record text, when the record was built. */
  function CycleRecord(rev: Revision, p: Probes, zones: seq<string>, cores: seq<string>, status: Cell,
                       validZones: string, time: Cell, show: real -> Cell): (r: Result<Option<string>, Error>)
    ensures r.Ok? <==> Cycle(rev, p, zones, cores, status, validZones, time).Ok?
    ensures r.Ok? ==> (r.value.Some? <==> Cycle(rev, p, zones, cores, status, validZones, time).value.Some?)
  {
    match Cycle(rev, p, zones, cores, status, validZones, time)
    case Err(e) => Err(e)
    case Ok(None) => Ok(None)
    case Ok(Some(fs)) => Ok(Some(Row(fs, show)))
  }

  /** The record, or the first error, in terms of the three lists in the order a cycle reads them. */
  lemma CycleRecordOfLists(rev: Revision, p: Probes, zones: seq<string>, cores: seq<string>, status: Cell,
                           validZones: string, time: Cell, show: real -> Cell)
    ensures CycleRecord(rev, p, zones, cores, status, validZones, time, show)
      == if ThermalData(rev, p, zones, status, validZones).Err? then Err(ThermalData(rev, p, zones, status, validZones).error)
         else if FrequencyData(p, cores).Err? then Err(FrequencyData(p, cores).error)
         else if !rev.PFManagerRev? && UtilizationData(p).Err? then Err(UtilizationData(p).error)
         else
           var fields := RecordFields(rev, time, ThermalData(rev, p, zones, status, validZones).value,
             FrequencyData(p, cores).value, if rev.PFManagerRev? then [] else UtilizationData(p).value);
           Ok(if fields.Some? then Some(Row(fields.value, show)) else None)
  {
  }

  /**
   * The reading half of `processDataCollection`: the thermal, frequency and (except
   * in `PFManager`) utilisation lists, each ending the cycle on its first error,
   * then the record laid out from them.
   */
  method BuildRecord(rev: Revision, p: Probes, zones: seq<string>, cores: seq<string>, status: Cell,
                     validZones: string, time: Cell, show: real -> Cell) returns (r: Result<Option<string>, Error>)
    ensures r == CycleRecord(rev, p, zones, cores, status, validZones, time, show)
  {
    CycleRecordOfLists(rev, p, zones, cores, status, validZones, time, show);
    var thermal := ProcessThermalData(rev, p, zones, status, validZones);
    if thermal.Err? {
      return Err(thermal.error);
    }
    var freqs := ProcessFrequencyData(p, cores);
    if freqs.Err? {
      return Err(freqs.error);
    }
    var utils: seq<Field> := [];
    if !rev.PFManagerRev? {
      var u := UtilizationData(p);
      if u.Err? {
        return Err(u.error);
      }
      utils := u.value;
    }
    var fields := RecordFields(rev, time, thermal.value, freqs.value, utils);
    r := Ok(if fields.Some? then Some(Row(fields.value, show)) else None);
  }

  /** The record is one line, ending in a newline, and reads back as one field per laid-out value. */
  lemma CycleRecordLine(rev: Revision, p: Probes, zones: seq<string>, cores: seq<string>, status: Cell,
                        validZones: string, time: Cell, show: real -> Cell)
    requires CycleRecord(rev, p, zones, cores, status, validZones, time, show).Ok?
    requires CycleRecord(rev, p, zones, cores, status, validZones, time, show).value.Some?
    ensures var text := CycleRecord(rev, p, zones, cores, status, validZones, time, show).value.value;
      |text| > 0 && text[|text| - 1] == '\n' && '\n' !in text[..|text| - 1]
      && FieldCount(text) == |Cycle(rev, p, zones, cores, status, validZones, time).value.value|
  {
    var fs := Cycle(rev, p, zones, cores, status, validZones, time).value.value;
    FieldsRow(fs, show);
    RecordIsOneLine(RenderAll(fs, show));
  }

  /**
   * With the headers the constructor builds, a cycle that parses always yields a
   * record: the time, the status, three means, two frequencies and, except in
   * `PFManager`, the two utilisations, read back as that many fields.
   */
  lemma CycleWidth(rev: Revision, p: Probes, zones: seq<string>, cores: seq<string>, status: Cell,
                   validZones: string, time: Cell, show: real -> Cell)
    requires rev.DataProcessorRev? ==> validZones == TypeHeaders(Interest)
    requires Cycle(rev, p, zones, cores, status, validZones, time).Ok?
    ensures Cycle(rev, p, zones, cores, status, validZones, time).value.Some?
    ensures CycleRecord(rev, p, zones, cores, status, validZones, time, show).value.Some?
    ensures FieldCount(CycleRecord(rev, p, zones, cores, status, validZones, time, show).value.value)
      == Width(rev)
  {
    var ts := ZoneTallies(rev, p, zones).value;
    ThermalListShape(rev, status, ts, validZones);
    var fs := Cycle(rev, p, zones, cores, status, validZones, time).value.value;
    FieldsRow(fs, show);
  }

  // ---------------------------------------------------------------------------
  // Headers

  /** The nine column names every header lists. */
  const Columns: seq<string> := ["time", "thermalStatus", "cpuTemperature", "gpuTemperature",
    "npuTemperature", "cpuFrequency", "gpuFrequency", "cpuUtilization", "gpuUtilization"]

  /** The latest revision's header: fixed names around the type headers text. */
  function DataProcessorHeader(typeHeaders: string): string {
    "time" + [','] + "thermalStatus" + [','] + typeHeaders + "cpuFrequency" + [','] + "gpuFrequency"
      + [','] + "cpuUtilization" + [','] + "gpuUtilization" + ['\n']
  }

  /** The older revision's header, appended name by name. */
  function MainActivityHeader(): string {
    "time" + [','] + "thermalStatus" + [','] + "cpuTemperature" + [','] + "gpuTemperature" + [',']
      + "npuTemperature" + [','] + "cpuFrequency" + [','] + "gpuFrequency" + [','] + "cpuUtilization"
      + [','] + "gpuUtilization" + ['\n']
  }

  /** The three thermal column names, each followed by its comma. */
  const ThermalColumns: string :=
    "cpuTemperature" + [','] + "gpuTemperature" + [','] + "npuTemperature" + [',']

  lemma InterestHeaders()
    ensures TypeHeaders(Interest) == ThermalColumns
  {
    assert Interest[..2] == [Cpu, Gpu] && [Cpu, Gpu][..1] == [Cpu] && [Cpu][..0] == [];
    assert TypeHeaders([Cpu]) == TypeHeader(Cpu) by {
      assert "" + TypeHeader(Cpu) == TypeHeader(Cpu);
    }
    TemperatureHeaders();
    var c, g, n := "cpuTemperature", "gpuTemperature", "npuTemperature";
    AppendAssoc(c + [','], g, [',']);
    AppendAssoc(c + [','] + g + [','], n, [',']);
  }

  /** Each domain's header, as the older revision spells it out. */
  lemma TemperatureHeaders()
    ensures TypeHeader(Cpu) == "cpuTemperature" + [',']
    ensures TypeHeader(Gpu) == "gpuTemperature" + [',']
    ensures TypeHeader(Npu) == "npuTemperature" + [',']
  {
  }

  /** The older revision's header is the nine columns as one record. */
  lemma MainActivityHeaderColumns()
    ensures MainActivityHeader() == RecordText(Columns)
  {
    var c := Columns;
    JoinNine(c[0], c[1], c[2], c[3], c[4], c[5], c[6], c[7], c[8]);
    assert c == [c[0], c[1], c[2], c[3], c[4], c[5], c[6], c[7], c[8]];
  }

  /** Nine names joined by commas, written as the appends that build them. */
  lemma JoinNine(a: string, b: string, c: string, d: string, e: string, f: string, g: string, h: string, i: string)
    ensures Join([a, b, c, d, e, f, g, h, i], ',')
      == a + [','] + b + [','] + c + [','] + d + [','] + e + [','] + f + [','] + g + [','] + h + [','] + i
  {
    JoinSnoc([a], b, ',');
    assert [a] + [b] == [a, b];
    JoinSnoc([a, b], c, ',');
    assert [a, b] + [c] == [a, b, c];
    JoinSnoc([a, b, c], d, ',');
    assert [a, b, c] + [d] == [a, b, c, d];
    JoinSnoc([a, b, c, d], e, ',');
    assert [a, b, c, d] + [e] == [a, b, c, d, e];
    JoinSnoc([a, b, c, d, e], f, ',');
    assert [a, b, c, d, e] + [f] == [a, b, c, d, e, f];
    JoinSnoc([a, b, c, d, e, f], g, ',');
    assert [a, b, c, d, e, f] + [g] == [a, b, c, d, e, f, g];
    JoinSnoc([a, b, c, d, e, f, g], h, ',');
    assert [a, b, c, d, e, f, g] + [h] == [a, b, c, d, e, f, g, h];
    JoinSnoc([a, b, c, d, e, f, g, h], i, ',');
    assert [a, b, c, d, e, f, g, h] + [i] == [a, b, c, d, e, f, g, h, i];
  }

  /** The fixed names before and after the thermal columns. */
  const HeaderLead: string := "time" + [','] + "thermalStatus" + [',']
  const HeaderTail: string := "cpuFrequency" + [','] + "gpuFrequency" + [','] + "cpuUtilization" + [',']
    + "gpuUtilization" + ['\n']

  lemma DataProcessorHeaderAround(typeHeaders: string)
    ensures DataProcessorHeader(typeHeaders) == HeaderLead + typeHeaders + HeaderTail
  {
    AppendRegroup(HeaderLead + typeHeaders, "cpuFrequency", "gpuFrequency", "cpuUtilization", "gpuUtilization");
  }

  lemma MainActivityHeaderAround()
    ensures MainActivityHeader() == HeaderLead + ThermalColumns + HeaderTail
  {
    var lead := HeaderLead + "cpuTemperature" + [','] + "gpuTemperature" + [','] + "npuTemperature" + [','];
    AppendRegroup(lead, "cpuFrequency", "gpuFrequency", "cpuUtilization", "gpuUtilization");
    var c, g, n := "cpuTemperature", "gpuTemperature", "npuTemperature";
    AppendAssoc(HeaderLead, c, [',']);
    AppendAssoc(HeaderLead, c + [','], g);
    AppendAssoc(HeaderLead, c + [','] + g, [',']);
    AppendAssoc(HeaderLead, c + [','] + g + [','], n);
    AppendAssoc(HeaderLead, c + [','] + g + [','] + n, [',']);
  }

  /** The four trailing names, with their separators, regrouped after any prefix. */
  lemma AppendRegroup(prefix: string, a: string, b: string, c: string, d: string)
    ensures prefix + a + [','] + b + [','] + c + [','] + d + ['\n']
      == prefix + (a + [','] + b + [','] + c + [','] + d + ['\n'])
  {
    AppendAssoc(prefix, a, [',']);
    AppendAssoc(prefix, a + [','], b);
    AppendAssoc(prefix, a + [','] + b, [',']);
    AppendAssoc(prefix, a + [','] + b + [','], c);
    AppendAssoc(prefix, a + [','] + b + [','] + c, [',']);
    AppendAssoc(prefix, a + [','] + b + [','] + c + [','], d);
    AppendAssoc(prefix, a + [','] + b + [','] + c + [','] + d, ['\n']);
  }

  /** The column names hold no comma, so the header reads back as nine fields. */
  lemma ColumnsReadBack()
    ensures FieldCount(RecordText(Columns)) == 9
  {
    assert forall k :: 0 <= k < |Columns| ==> ',' !in Columns[k];
    FieldsRecord(Columns);
  }

  /** Both revisions write the same header: the nine columns, comma-joined, one line. */
  lemma HeadersAgree()
    ensures DataProcessorHeader(TypeHeaders(Interest)) == MainActivityHeader()
    ensures MainActivityHeader() == RecordText(Columns)
    ensures FieldCount(MainActivityHeader()) == 9
  {
    InterestHeaders();
    DataProcessorHeaderAround(TypeHeaders(Interest));
    MainActivityHeaderAround();
    MainActivityHeaderColumns();
    ColumnsReadBack();
  }

  /** The latest revision's header, as its constructor builds it, reads back as nine fields. */
  lemma HeaderWidth()
    ensures FieldCount(DataProcessorHeader(TypeHeaders(Interest))) == 9
  {
    HeadersAgree();
  }

  /**
   * `PFManager` appends 7-field records to the file whose 9-field header the
   * activity wrote before handing it the path.
   */
  lemma SchemaMismatch(p: Probes, zones: seq<string>, cores: seq<string>, status: Cell, validZones: string,
                       time: Cell, show: real -> Cell)
    requires Cycle(PFManagerRev, p, zones, cores, status, validZones, time).Ok?
    ensures FieldCount(CycleRecord(PFManagerRev, p, zones, cores, status, validZones, time, show).value.value)
      == 7 != FieldCount(MainActivityHeader())
  {
    CycleWidth(PFManagerRev, p, zones, cores, status, validZones, time, show);
    HeadersAgree();
  }

  // ---------------------------------------------------------------------------
  // What each column holds

  /** What one cycle measured, before it is printed; `PFManager` reads no utilisations. */
  datatype Snapshot = Snapshot(time: Cell, status: Cell, cpuTemp: Num, gpuTemp: Num, npuTemp: Num,
                               cpuFreq: Num, gpuFreq: real, cpuUtil: Option<Cell>, gpuUtil: Option<real>)

  /** The text a column holds for a snapshot, looked up by the column's name. */
  function ColumnCell(s: Snapshot, column: string, show: real -> Cell): string {
    if column == "time" then s.time
    else if column == "thermalStatus" then s.status
    else if column == "cpuTemperature" then Render(Numeric(s.cpuTemp), show)
    else if column == "gpuTemperature" then Render(Numeric(s.gpuTemp), show)
    else if column == "npuTemperature" then Render(Numeric(s.npuTemp), show)
    else if column == "cpuFrequency" then Render(Numeric(s.cpuFreq), show)
    else if column == "gpuFrequency" then Render(Numeric(Val(s.gpuFreq)), show)
    else if column == "cpuUtilization" then (if s.cpuUtil.Some? then s.cpuUtil.value else "")
    else if column == "gpuUtilization" then (if s.gpuUtil.Some? then Render(Numeric(Val(s.gpuUtil.value)), show) else "")
    else ""
  }

  /** The texts a row of the given columns holds for a snapshot. */
  function ColumnCells(s: Snapshot, columns: seq<string>, show: real -> Cell): (r: seq<string>)
    ensures |r| == |columns|
  {
    seq(|columns|, k requires 0 <= k < |columns| => ColumnCell(s, columns[k], show))
  }

  /** Each of the nine columns, by name, holds its own measurement. */
  lemma ColumnCellsInOrder(s: Snapshot, show: real -> Cell)
    ensures ColumnCells(s, Columns, show) == [s.time, s.status, Render(Numeric(s.cpuTemp), show),
      Render(Numeric(s.gpuTemp), show), Render(Numeric(s.npuTemp), show), Render(Numeric(s.cpuFreq), show),
      Render(Numeric(Val(s.gpuFreq)), show), ColumnCell(s, "cpuUtilization", show),
      ColumnCell(s, "gpuUtilization", show)]
  {
  }

  /**
   * The snapshot of a cycle that reads without error: the status it was given, the
   * mean CPU, GPU and NPU zone temperatures, the mean core frequency, the GPU
   * frequency and, except in `PFManager`, the CPU share and the GPU utilisation.
   */
  function Measured(rev: Revision, p: Probes, zones: seq<string>, cores: seq<string>, status: Cell, time: Cell)
    : Snapshot
    requires ZoneTallies(rev, p, zones).Ok? && CoreFreqSum(p, cores).Ok? && p.gpuFreq.Ok?
    requires !rev.PFManagerRev? ==> p.cpuUtil.Ok? && p.gpuUtil.Ok?
  {
    var ts := ZoneTallies(rev, p, zones).value;
    Snapshot(time, status, Mean(ts.cpu), Mean(ts.gpu), Mean(ts.npu),
      Mean(Tally(CoreFreqSum(p, cores).value, |cores|)), p.gpuFreq.value,
      if rev.PFManagerRev? then None else Some(p.cpuUtil.value),
      if rev.PFManagerRev? then None else Some(p.gpuUtil.value))
  }

  /** A cycle that reads without error read all three lists and laid the record out from them. */
  lemma CycleLists(rev: Revision, p: Probes, zones: seq<string>, cores: seq<string>, status: Cell,
                   validZones: string, time: Cell)
    requires Cycle(rev, p, zones, cores, status, validZones, time).Ok?
    ensures ThermalData(rev, p, zones, status, validZones).Ok? && FrequencyData(p, cores).Ok?
    ensures !rev.PFManagerRev? ==> UtilizationData(p).Ok?
    ensures Cycle(rev, p, zones, cores, status, validZones, time).value
      == RecordFields(rev, time, ThermalData(rev, p, zones, status, validZones).value, FrequencyData(p, cores).value,
           if rev.PFManagerRev? then [] else UtilizationData(p).value)
  {
  }

  /** With the headers the constructor builds, a thermal list is the status and three means. */
  lemma ThermalFields(rev: Revision, p: Probes, zones: seq<string>, status: Cell, validZones: string)
    requires rev.DataProcessorRev? ==> validZones == TypeHeaders(Interest)
    requires ThermalData(rev, p, zones, status, validZones).Ok?
    ensures ZoneTallies(rev, p, zones).Ok?
    ensures ThermalData(rev, p, zones, status, validZones).value == [Textual(status),
      MeanField(ZoneTallies(rev, p, zones).value, Cpu), MeanField(ZoneTallies(rev, p, zones).value, Gpu),
      MeanField(ZoneTallies(rev, p, zones).value, Npu)]
  {
    ThermalListShape(rev, status, ZoneTallies(rev, p, zones).value, validZones);
  }

  /** A frequency list is the mean core frequency and the GPU frequency. */
  lemma FrequencyFields(p: Probes, cores: seq<string>)
    requires FrequencyData(p, cores).Ok?
    ensures CoreFreqSum(p, cores).Ok? && p.gpuFreq.Ok?
    ensures FrequencyData(p, cores).value
      == [Mean(Tally(CoreFreqSum(p, cores).value, |cores|)), Val(p.gpuFreq.value)]
  {
  }

  /** A utilisation list is the CPU share and the GPU utilisation. */
  lemma UtilizationFields(p: Probes)
    requires UtilizationData(p).Ok?
    ensures p.cpuUtil.Ok? && p.gpuUtil.Ok?
    ensures UtilizationData(p).value == [Textual(p.cpuUtil.value), Numeric(Val(p.gpuUtil.value))]
  {
  }

  /** Lists of exactly the expected lengths are laid out whole, in order. */
  lemma RecordFieldsWhole(rev: Revision, time: Cell, thermal: seq<Field>, freqs: seq<Num>, utils: seq<Field>)
    requires |thermal| == 4 && |freqs| == 2 && |utils| == (if rev.PFManagerRev? then 0 else 2)
    ensures RecordFields(rev, time, thermal, freqs, utils)
      == Some([Textual(time)] + thermal + [Numeric(freqs[0]), Numeric(freqs[1])] + utils)
  {
    assert thermal[..4] == thermal;
    assert utils[..|utils|] == utils;
  }

  /** The fields a cycle that reads without error lays out, before they are printed. */
  lemma CycleFields(rev: Revision, p: Probes, zones: seq<string>, cores: seq<string>, status: Cell,
                    validZones: string, time: Cell)
    requires rev.DataProcessorRev? ==> validZones == TypeHeaders(Interest)
    requires Cycle(rev, p, zones, cores, status, validZones, time).Ok?
    ensures ZoneTallies(rev, p, zones).Ok? && CoreFreqSum(p, cores).Ok? && p.gpuFreq.Ok?
    ensures !rev.PFManagerRev? ==> p.cpuUtil.Ok? && p.gpuUtil.Ok?
    ensures Cycle(rev, p, zones, cores, status, validZones, time).value == Some(
      [Textual(time), Textual(status), MeanField(ZoneTallies(rev, p, zones).value, Cpu),
       MeanField(ZoneTallies(rev, p, zones).value, Gpu), MeanField(ZoneTallies(rev, p, zones).value, Npu),
       Numeric(Mean(Tally(CoreFreqSum(p, cores).value, |cores|))), Numeric(Val(p.gpuFreq.value))]
      + (if rev.PFManagerRev? then [] else [Textual(p.cpuUtil.value), Numeric(Val(p.gpuUtil.value))]))
  {
    CycleLists(rev, p, zones, cores, status, validZones, time);
    ThermalFields(rev, p, zones, status, validZones);
    FrequencyFields(p, cores);
    if !rev.PFManagerRev? {
      UtilizationFields(p);
    }
    var thermal := ThermalData(rev, p, zones, status, validZones).value;
    var freqs := FrequencyData(p, cores).value;
    var utils := if rev.PFManagerRev? then [] else UtilizationData(p).value;
    RecordFieldsWhole(rev, time, thermal, freqs, utils);
    var ts := ZoneTallies(rev, p, zones).value;
    Assembled(time, thermal, freqs, utils, Textual(status), MeanField(ts, Cpu), MeanField(ts, Gpu),
      MeanField(ts, Npu), freqs[0], freqs[1]);
  }

  /** Flattens the three lists of a record into one. */
  lemma Assembled(time: Cell, thermal: seq<Field>, freqs: seq<Num>, utils: seq<Field>,
                  t0: Field, t1: Field, t2: Field, t3: Field, f0: Num, f1: Num)
    requires thermal == [t0, t1, t2, t3] && freqs == [f0, f1]
    ensures [Textual(time)] + thermal + [Numeric(freqs[0]), Numeric(freqs[1])] + utils
      == [Textual(time), t0, t1, t2, t3, Numeric(f0), Numeric(f1)] + utils
  {
  }

  /** The fields a snapshot is printed from, in column order; no utilisations when none were read. */
  function Laid(s: Snapshot): (r: seq<Field>)
    ensures |r| == if s.cpuUtil.Some? && s.gpuUtil.Some? then 9 else 7
  {
    [Textual(s.time), Textual(s.status), Numeric(s.cpuTemp), Numeric(s.gpuTemp), Numeric(s.npuTemp),
     Numeric(s.cpuFreq), Numeric(Val(s.gpuFreq))]
      + (if s.cpuUtil.Some? && s.gpuUtil.Some? then [Textual(s.cpuUtil.value), Numeric(Val(s.gpuUtil.value))] else [])
  }

  /** Printing the laid-out fields gives, column by column, what each named column holds. */
  lemma LaidColumns(s: Snapshot, show: real -> Cell)
    ensures RenderAll(Laid(s), show) == ColumnCells(s, Columns[..|Laid(s)|], show)
  {
    ColumnCellsInOrder(s, show);
    var cells := RenderAll(Laid(s), show);
    var all := ColumnCells(s, Columns, show);
    forall k | 0 <= k < |cells|
      ensures cells[k] == all[k]
    {
    }
    assert ColumnCells(s, Columns[..|Laid(s)|], show) == all[..|cells|];
  }

  /** A cycle that reads without error lays out exactly the fields of what it measured. */
  lemma CycleLaid(rev: Revision, p: Probes, zones: seq<string>, cores: seq<string>, status: Cell,
                  validZones: string, time: Cell)
    requires rev.DataProcessorRev? ==> validZones == TypeHeaders(Interest)
    requires Cycle(rev, p, zones, cores, status, validZones, time).Ok?
    ensures ZoneTallies(rev, p, zones).Ok? && CoreFreqSum(p, cores).Ok? && p.gpuFreq.Ok?
    ensures !rev.PFManagerRev? ==> p.cpuUtil.Ok? && p.gpuUtil.Ok?
    ensures Cycle(rev, p, zones, cores, status, validZones, time).value
      == Some(Laid(Measured(rev, p, zones, cores, status, time)))
    ensures |Laid(Measured(rev, p, zones, cores, status, time))| == Width(rev)
  {
    CycleFields(rev, p, zones, cores, status, validZones, time);
    var ts := ZoneTallies(rev, p, zones).value;
    assert MeanField(ts, Cpu) == Numeric(Mean(ts.cpu)) && MeanField(ts, Gpu) == Numeric(Mean(ts.gpu))
      && MeanField(ts, Npu) == Numeric(Mean(ts.npu));
  }

  /**
   * A cycle that reads without error appends a record that a reader splits into
   * the columns of the header, each holding its own measurement: the time, the
   * status, the mean CPU, GPU and NPU temperatures, the mean core frequency, the
   * GPU frequency and, except in `PFManager`, the CPU share and GPU utilisation.
   */
  lemma RecordColumns(rev: Revision, p: Probes, zones: seq<string>, cores: seq<string>, status: Cell,
                      validZones: string, time: Cell, show: real -> Cell)
    requires rev.DataProcessorRev? ==> validZones == TypeHeaders(Interest)
    requires Cycle(rev, p, zones, cores, status, validZones, time).Ok?
    ensures ZoneTallies(rev, p, zones).Ok? && CoreFreqSum(p, cores).Ok? && p.gpuFreq.Ok?
    ensures !rev.PFManagerRev? ==> p.cpuUtil.Ok? && p.gpuUtil.Ok?
    ensures CycleRecord(rev, p, zones, cores, status, validZones, time, show).value.Some?
    ensures Fields(CycleRecord(rev, p, zones, cores, status, validZones, time, show).value.value)
      == ColumnCells(Measured(rev, p, zones, cores, status, time), Columns[..Width(rev)], show)
  {
    CycleLaid(rev, p, zones, cores, status, validZones, time);
    var s := Measured(rev, p, zones, cores, status, time);
    FieldsRow(Laid(s), show);
    LaidColumns(s, show);
  }

  // ---------------------------------------------------------------------------
  // Thermal status names

  /**
   * `getThermalStatusName`: the SDK's thermal status codes 0 to 6 by name. Each
   * known code has its own name, which leads back to it; every other code reads
   * "Unknown".
   */
  function ThermalStatusName(status: int): (r: Cell)
    ensures 0 <= status <= 6 ==> StatusCode(r) == Some(status)
    ensures r == "Unknown" <==> !(0 <= status <= 6)
    ensures StatusCode(r).None? <==> !(0 <= status <= 6)
  {
    match status
    case 0 => "None"
    case 1 => "Light"
    case 2 => "Moderate"
    case 3 => "Severe"
    case 4 => "Critical"
    case 5 => "Emergency"
    case 6 => "Shutdown"
    case _ => "Unknown"
  }

  /** The code a status name stands for. */
  function StatusCode(name: string): Option<int> {
    if name == "None" then Some(0)
    else if name == "Light" then Some(1)
    else if name == "Moderate" then Some(2)
    else if name == "Severe" then Some(3)
    else if name == "Critical" then Some(4)
    else if name == "Emergency" then Some(5)
    else if name == "Shutdown" then Some(6)
    else None
  }
}
