/**
 * `CameraFragment`: the bottom-sheet controls that step the classifier's knobs
 * within fixed bounds, the two toggles, the list of classifiers one frame is sent
 * to, and the throughput file it writes.
 */
module Camera {
  import opened Wrappers
  import opened Text
  import opened Csv
  import opened Classifier

  // ---------------------------------------------------------------------------
  // Bounded steppers

  /** A minus button: step down only while above `floor`. */
  function Decrement(v: int, floor: int): int {
    if v > floor then v - 1 else v
  }

  /** A plus button: step up only while below `ceiling`. */
  function Increment(v: int, ceiling: int): int {
    if v < ceiling then v + 1 else v
  }

  /** Both buttons keep a value that starts within the bounds within them. */
  lemma SteppersKeepRange(v: int, floor: int, ceiling: int)
    requires floor <= v <= ceiling
    ensures floor <= Decrement(v, floor) <= ceiling
    ensures floor <= Increment(v, ceiling) <= ceiling
  {
  }

  /** A step that moved is undone by the opposite button; a step at the bound does nothing. */
  lemma SteppersUndo(v: int, floor: int, ceiling: int)
    requires floor <= v <= ceiling
    ensures Decrement(v, floor) == v <==> v == floor
    ensures Increment(v, ceiling) == v <==> v == ceiling
    ensures v > floor ==> Increment(Decrement(v, floor), ceiling) == v
    ensures v < ceiling ==> Decrement(Increment(v, ceiling), floor) == v
  {
  }

  const MaxResultsRange: (int, int) := (1, 3)
  const TaskPeriodRange: (int, int) := (0, 1000)
  const ThreadsRange: (int, int) := (1, 4)

  /** The knobs the buttons can reach, from the helper's defaults. */
  predicate InRange(s: Settings) {
    MaxResultsRange.0 <= s.maxResults <= MaxResultsRange.1
    && TaskPeriodRange.0 <= s.taskPeriod <= TaskPeriodRange.1
    && ThreadsRange.0 <= s.numThreads <= ThreadsRange.1
  }

  // ---------------------------------------------------------------------------
  // The throughput file

  const ThroughputColumns: seq<string> := ["time", "model", "delegate", "throughput", "period"]

  /** The header, appended name by name: one line, opening with the time column. */
  function ThroughputHeader(): (r: string)
    ensures |r| > 5 && r[..5] == "time," && r[|r| - 1] == '\n'
  {
    "time" + [','] + "model" + [','] + "delegate" + [','] + "throughput" + [','] + "period" + ['\n']
  }

  /**
   * One row: the time, the model and delegate names, the throughput and the
   * period. It opens with the time as its own cell and ends the line.
   */
  function ThroughputRow(time: Cell, s: Settings, throughput: int): (r: string)
    ensures |r| > |time| + 1 && r[..|time|] == time && r[|time|] == ',' && r[|r| - 1] == '\n'
  {
    var tail := ModelName(s.currentModel) + [','] + DelegateName(s.currentDelegate) + [',']
      + IntToString(throughput) + [','] + IntToString(s.taskPeriod) + ['\n'];
    assert (time + [','] + tail)[..|time|] == time;
    time + [','] + tail
  }

  /** The header reads back as its five column names. */
  lemma ThroughputHeaderColumns()
    ensures ThroughputHeader() == RecordText(ThroughputColumns)
    ensures Fields(ThroughputHeader()) == ThroughputColumns
  {
    var c := ThroughputColumns;
    assert c[..1] == ["time"];
    forall k | 1 <= k < 5
      ensures Join(c[..k + 1], ',') == Join(c[..k], ',') + [','] + c[k]
    {
      assert c[..k + 1] == c[..k] + [c[k]];
      JoinSnoc(c[..k], c[k], ',');
    }
    assert c[..5] == c;
    assert forall k :: 0 <= k < |c| ==> ',' !in c[k];
    FieldsRecord(c);
  }

  /** Every row reads back as five fields, in the header's order. */
  lemma ThroughputRowFields(time: Cell, s: Settings, throughput: int)
    ensures Fields(ThroughputRow(time, s, throughput))
      == [time, ModelName(s.currentModel), DelegateName(s.currentDelegate), IntToString(throughput),
          IntToString(s.taskPeriod)]
    ensures FieldCount(ThroughputRow(time, s, throughput)) == |ThroughputColumns|
  {
    var cells := [time, ModelName(s.currentModel), DelegateName(s.currentDelegate), IntToString(throughput),
                  IntToString(s.taskPeriod)];
    IntToStringIsCell(throughput);
    IntToStringIsCell(s.taskPeriod);
    assert cells[..1] == [time];
    assert Join(cells[..1], ',') == time;
    assert cells[..2] == cells[..1] + [cells[1]];
    JoinSnoc(cells[..1], cells[1], ',');
    assert cells[..3] == cells[..2] + [cells[2]];
    JoinSnoc(cells[..2], cells[2], ',');
    assert cells[..4] == cells[..3] + [cells[3]];
    JoinSnoc(cells[..3], cells[3], ',');
    assert cells == cells[..4] + [cells[4]];
    JoinSnoc(cells[..4], cells[4], ',');
    RowRegroup(cells[0] + [','], cells[1], cells[2], cells[3], cells[4]);
    assert ThroughputRow(time, s, throughput) == RecordText(cells);
    FieldsRecord(cells);
  }

  /** Appending the rest of a row in one piece or cell by cell gives the same text. */
  lemma RowRegroup(lead: string, m: string, d: string, t: string, p: string)
    ensures lead + (m + [','] + d + [','] + t + [','] + p + ['\n'])
      == lead + m + [','] + d + [','] + t + [','] + p + ['\n']
  {
  }

  function ThroughputFile(folder: string, series: string): string {
    folder + "/" + "Throughput_Measurements" + series + ".csv"
  }

  class CameraFragment {
    var imageClassifierHelper: ImageClassifierHelper
    var imageClassifierHelpers: seq<ImageClassifierHelper>
    var imageClassifierStatus: bool
    var testStatus: bool
    const throughputPath: string
    const fs: FileSystem

    /** The current helper heads the list, and the list holds no helper twice. */
    predicate Valid()
      reads this
    {
      |imageClassifierHelpers| > 0 && imageClassifierHelpers[0] == imageClassifierHelper
      && forall i, j :: 0 <= i < j < |imageClassifierHelpers| ==> imageClassifierHelpers[i] != imageClassifierHelpers[j]
    }

    /** `onViewCreated`: one helper, both toggles off, and the throughput file created with its header. */
    constructor (folder: string, series: string, fs: FileSystem)
      modifies fs
      ensures fresh(imageClassifierHelper) && imageClassifierHelpers == [imageClassifierHelper]
      ensures imageClassifierHelper.CurrentSettings() == Settings(2, 3, 0, 0, 500)
      ensures InRange(imageClassifierHelper.CurrentSettings())
      ensures !imageClassifierStatus && !testStatus
      ensures throughputPath == ThroughputFile(folder, series) && this.fs == fs
      ensures fs.files == (if fs.Opens(throughputPath) then old(fs.files)[throughputPath := [ThroughputHeader()]]
        else old(fs.files))
      ensures Valid()
    {
      var helper := new ImageClassifierHelper(0);
      var path := ThroughputFile(folder, series);
      var _ := fs.Create(path, ThroughputHeader());
      imageClassifierHelper := helper;
      imageClassifierHelpers := [helper];
      imageClassifierStatus := false;
      testStatus := false;
      throughputPath := path;
      this.fs := fs;
    }

    method MaxResultsMinus()
      modifies imageClassifierHelper
      ensures imageClassifierHelper.CurrentSettings() == old(imageClassifierHelper.CurrentSettings())
        .(maxResults := Decrement(old(imageClassifierHelper.maxResults), MaxResultsRange.0))
      ensures imageClassifierHelper.CurrentCounters() == old(imageClassifierHelper.CurrentCounters())
      ensures old(InRange(imageClassifierHelper.CurrentSettings())) ==> InRange(imageClassifierHelper.CurrentSettings())
    {
      var maxResults := imageClassifierHelper.maxResults;
      if maxResults > 1 {
        imageClassifierHelper.SetMaxResults(maxResults - 1);
      }
    }

    method MaxResultsPlus()
      modifies imageClassifierHelper
      ensures imageClassifierHelper.CurrentSettings() == old(imageClassifierHelper.CurrentSettings())
        .(maxResults := Increment(old(imageClassifierHelper.maxResults), MaxResultsRange.1))
      ensures imageClassifierHelper.CurrentCounters() == old(imageClassifierHelper.CurrentCounters())
      ensures old(InRange(imageClassifierHelper.CurrentSettings())) ==> InRange(imageClassifierHelper.CurrentSettings())
    {
      var maxResults := imageClassifierHelper.maxResults;
      if maxResults < 3 {
        imageClassifierHelper.SetMaxResults(maxResults + 1);
      }
    }

    method TaskPeriodMinus()
      modifies imageClassifierHelper
      ensures imageClassifierHelper.CurrentSettings() == old(imageClassifierHelper.CurrentSettings())
        .(taskPeriod := Decrement(old(imageClassifierHelper.taskPeriod), TaskPeriodRange.0))
      ensures imageClassifierHelper.CurrentCounters() == old(imageClassifierHelper.CurrentCounters())
      ensures old(InRange(imageClassifierHelper.CurrentSettings())) ==> InRange(imageClassifierHelper.CurrentSettings())
    {
      var taskPeriod := imageClassifierHelper.taskPeriod;
      if taskPeriod > 0 {
        imageClassifierHelper.SetTaskPeriod(taskPeriod - 1);
      }
    }

    method TaskPeriodPlus()
      modifies imageClassifierHelper
      ensures imageClassifierHelper.CurrentSettings() == old(imageClassifierHelper.CurrentSettings())
        .(taskPeriod := Increment(old(imageClassifierHelper.taskPeriod), TaskPeriodRange.1))
      ensures imageClassifierHelper.CurrentCounters() == old(imageClassifierHelper.CurrentCounters())
      ensures old(InRange(imageClassifierHelper.CurrentSettings())) ==> InRange(imageClassifierHelper.CurrentSettings())
    {
      var taskPeriod := imageClassifierHelper.taskPeriod;
      if taskPeriod < 1000 {
        imageClassifierHelper.SetTaskPeriod(taskPeriod + 1);
      }
    }

    method ThreadsMinus()
      modifies imageClassifierHelper
      ensures imageClassifierHelper.CurrentSettings() == old(imageClassifierHelper.CurrentSettings())
        .(numThreads := Decrement(old(imageClassifierHelper.numThreads), ThreadsRange.0))
      ensures imageClassifierHelper.CurrentCounters() == old(imageClassifierHelper.CurrentCounters())
      ensures old(InRange(imageClassifierHelper.CurrentSettings())) ==> InRange(imageClassifierHelper.CurrentSettings())
    {
      var numThreads := imageClassifierHelper.numThreads;
      if numThreads > 1 {
        imageClassifierHelper.SetNumThreads(numThreads - 1);
      }
    }

    method ThreadsPlus()
      modifies imageClassifierHelper
      ensures imageClassifierHelper.CurrentSettings() == old(imageClassifierHelper.CurrentSettings())
        .(numThreads := Increment(old(imageClassifierHelper.numThreads), ThreadsRange.1))
      ensures imageClassifierHelper.CurrentCounters() == old(imageClassifierHelper.CurrentCounters())
      ensures old(InRange(imageClassifierHelper.CurrentSettings())) ==> InRange(imageClassifierHelper.CurrentSettings())
    {
      var numThreads := imageClassifierHelper.numThreads;
      if numThreads < 4 {
        imageClassifierHelper.SetNumThreads(numThreads + 1);
      }
    }

    /** The delegate spinner: any position is passed on as is. */
    method SelectDelegate(position: int)
      modifies imageClassifierHelper
      ensures imageClassifierHelper.CurrentSettings() == old(imageClassifierHelper.CurrentSettings()).(currentDelegate := position)
      ensures imageClassifierHelper.CurrentCounters() == old(imageClassifierHelper.CurrentCounters())
    {
      imageClassifierHelper.SetCurrentDelegate(position);
    }

    /** The model spinner: any position is passed on as is. */
    method SelectModel(position: int)
      modifies imageClassifierHelper
      ensures imageClassifierHelper.CurrentSettings() == old(imageClassifierHelper.CurrentSettings()).(currentModel := position)
      ensures imageClassifierHelper.CurrentCounters() == old(imageClassifierHelper.CurrentCounters())
    {
      imageClassifierHelper.SetCurrentModel(position);
    }

    /** The state toggle: flip the flag; switching on reconfigures the list of classifiers. */
    method ToggleState()
      requires Valid()
      modifies this
      ensures imageClassifierStatus == !old(imageClassifierStatus) && testStatus == old(testStatus)
      ensures imageClassifierHelper == old(imageClassifierHelper)
      ensures imageClassifierStatus ==> |imageClassifierHelpers| == (if testStatus then 3 else 1)
      ensures !imageClassifierStatus ==> imageClassifierHelpers == old(imageClassifierHelpers)
      ensures imageClassifierStatus ==> forall k :: 1 <= k < |imageClassifierHelpers| ==> fresh(imageClassifierHelpers[k])
      ensures Valid()
    {
      imageClassifierStatus := !imageClassifierStatus;
      if imageClassifierStatus {
        ConfigureImageClassifiers();
      }
    }

    /** The test toggle: flip the flag and nothing else. */
    method ToggleTest()
      modifies this
      ensures testStatus == !old(testStatus) && imageClassifierStatus == old(imageClassifierStatus)
      ensures imageClassifierHelper == old(imageClassifierHelper)
      ensures imageClassifierHelpers == old(imageClassifierHelpers)
    {
      testStatus := !testStatus;
    }

    /**
     * `configureImageClassifiers`: the current helper alone, and in test mode two
     * new helpers after it.
     */
    method ConfigureImageClassifiers()
      modifies this
      ensures imageClassifierStatus == old(imageClassifierStatus) && testStatus == old(testStatus)
      ensures imageClassifierHelper == old(imageClassifierHelper)
      ensures |imageClassifierHelpers| == (if testStatus then 3 else 1)
      ensures imageClassifierHelpers[0] == imageClassifierHelper
      ensures forall k :: 1 <= k < |imageClassifierHelpers| ==> fresh(imageClassifierHelpers[k])
      ensures Valid()
    {
      imageClassifierHelpers := [imageClassifierHelper];
      if testStatus {
        for i := 0 to 2
          invariant |imageClassifierHelpers| == i + 1
          invariant imageClassifierHelper == old(imageClassifierHelper)
          invariant imageClassifierStatus == old(imageClassifierStatus) && testStatus == old(testStatus)
          invariant imageClassifierHelpers[0] == imageClassifierHelper
          invariant forall k :: 1 <= k < |imageClassifierHelpers| ==> fresh(imageClassifierHelpers[k])
          invariant Valid()
        {
          var helper := new ImageClassifierHelper(0);
          imageClassifierHelpers := imageClassifierHelpers + [helper];
        }
      }
    }

    /**
     * `classifyImage`: every helper in the list classifies the frame, with the clock
     * readings `times[k]` for the k-th; then the list's head becomes the current helper.
     */
    method ClassifyImage(times: seq<(int, int)>)
      requires Valid() && |times| == |imageClassifierHelpers|
      modifies this, set h | h in imageClassifierHelpers
      ensures imageClassifierHelpers == old(imageClassifierHelpers)
      ensures imageClassifierHelper == imageClassifierHelpers[0]
      ensures imageClassifierStatus == old(imageClassifierStatus) && testStatus == old(testStatus)
      ensures forall k :: 0 <= k < |imageClassifierHelpers| ==> (
        imageClassifierHelpers[k].CurrentCounters()
          == ClassifyStep(old(imageClassifierHelpers[k].CurrentCounters()), times[k].0, times[k].1)
        && imageClassifierHelpers[k].CurrentSettings() == old(imageClassifierHelpers[k].CurrentSettings()))
      ensures Valid()
    {
      var helpers := imageClassifierHelpers;
      for n := 0 to |helpers|
        invariant imageClassifierHelpers == helpers
        invariant imageClassifierStatus == old(imageClassifierStatus) && testStatus == old(testStatus)
        invariant forall k :: 0 <= k < n ==> (
          helpers[k].CurrentCounters() == ClassifyStep(old(helpers[k].CurrentCounters()), times[k].0, times[k].1)
          && helpers[k].CurrentSettings() == old(helpers[k].CurrentSettings()))
        invariant forall k :: n <= k < |helpers| ==> (
          helpers[k].CurrentCounters() == old(helpers[k].CurrentCounters())
          && helpers[k].CurrentSettings() == old(helpers[k].CurrentSettings()))
      {
        var _ := helpers[n].Classify(times[n].0, times[n].1);
      }
      imageClassifierHelper := helpers[0];
    }

    /** One tick of the throughput timer: append the current helper's row. */
    method ProcessDataCollection(time: Cell) returns (row: string)
      modifies fs
      ensures row == ThroughputRow(time, imageClassifierHelper.CurrentSettings(), imageClassifierHelper.CalculateThroughput())
      ensures FieldCount(row) == |ThroughputColumns|
      ensures fs.files == (if fs.Opens(throughputPath)
        then old(fs.files)[throughputPath := old(fs.Records(throughputPath)) + [row]]
        else old(fs.files))
    {
      var throughput := imageClassifierHelper.CalculateThroughput();
      var period := imageClassifierHelper.taskPeriod;
      row := time + [','] + ModelName(imageClassifierHelper.currentModel) + [',']
        + DelegateName(imageClassifierHelper.currentDelegate) + [','] + IntToString(throughput) + [',']
        + IntToString(period) + ['\n'];
      RowRegroup(time + [','], ModelName(imageClassifierHelper.currentModel),
        DelegateName(imageClassifierHelper.currentDelegate), IntToString(throughput), IntToString(period));
      ThroughputRowFields(time, imageClassifierHelper.CurrentSettings(), throughput);
      var _ := fs.Append(throughputPath, Some(row));
    }
  }
}
