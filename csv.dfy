/**
 * Records as the collector writes them: comma-joined fields ending in a newline,
 * appended to files that several writers may share.
 */
module Csv {
  import opened Wrappers
  import opened Text

  /** A Java `float` as the collector uses it: a number, or NaN from `0f / 0`. */
  datatype Num = Val(x: real) | NaN

  /** One field of a record: text copied as is, or a float printed by `Float.toString`. */
  datatype Field = Textual(s: Cell) | Numeric(n: Num)

  /**
   * A field's text. `show` stands for `Float.toString` on a number; NaN prints as
   * `NaN`. Neither ever holds a comma or a line break.
   */
  function Render(f: Field, show: real -> Cell): Cell {
    match f
    case Textual(s) => s
    case Numeric(NaN) => "NaN"
    case Numeric(Val(x)) => show(x)
  }

  function RenderAll(fs: seq<Field>, show: real -> Cell): (r: seq<string>)
    ensures |r| == |fs|
    ensures forall k :: 0 <= k < |r| ==> r[k] == Render(fs[k], show)
  {
    seq(|fs|, k requires 0 <= k < |fs| => var c: string := Render(fs[k], show); c)
  }

  /** A record: the cells joined by commas, then a newline. */
  function RecordText(cells: seq<string>): string
    requires |cells| > 0
  {
    Join(cells, ',') + "\n"
  }

  function Row(fs: seq<Field>, show: real -> Cell): string
    requires |fs| > 0
  {
    RecordText(RenderAll(fs, show))
  }

  /** The fields a reader of the file sees in one record. */
  function Fields(record: string): seq<string> {
    var body := if |record| > 0 && record[|record| - 1] == '\n' then record[..|record| - 1] else record;
    SplitAll(body, ',')
  }

  function FieldCount(record: string): nat {
    |Fields(record)|
  }

  /** A record reads back as the cells it was written from. */
  lemma FieldsRecord(cells: seq<string>)
    requires |cells| > 0
    requires forall k :: 0 <= k < |cells| ==> ',' !in cells[k]
    ensures Fields(RecordText(cells)) == cells
    ensures FieldCount(RecordText(cells)) == |cells|
  {
    var r := RecordText(cells);
    assert r[..|r| - 1] == Join(cells, ',');
    SplitJoin(cells, ',');
  }

  /** A row of fields reads back as their rendered texts, one cell per field. */
  lemma FieldsRow(fs: seq<Field>, show: real -> Cell)
    requires |fs| > 0
    ensures Fields(Row(fs, show)) == RenderAll(fs, show)
    ensures FieldCount(Row(fs, show)) == |fs|
  {
    FieldsRecord(RenderAll(fs, show));
  }

  /** A record holds exactly one line. */
  lemma RecordIsOneLine(cells: seq<string>)
    requires |cells| > 0
    requires forall k :: 0 <= k < |cells| ==> '\n' !in cells[k]
    ensures '\n' !in RecordText(cells)[..|RecordText(cells)| - 1]
    ensures RecordText(cells)[|RecordText(cells)| - 1] == '\n'
  {
    JoinFree(cells, ',', '\n');
    assert RecordText(cells)[..|RecordText(cells)| - 1] == Join(cells, ',');
  }

  /** Every record of a file reads back as `width` fields. */
  predicate Aligned(records: seq<string>, width: nat) {
    forall k :: 0 <= k < |records| ==> FieldCount(records[k]) == width
  }

  lemma AlignedAppend(records: seq<string>, r: string, width: nat)
    requires Aligned(records, width) && FieldCount(r) == width
    ensures Aligned(records + [r], width)
  {
    forall k | 0 <= k < |records| + 1
      ensures FieldCount((records + [r])[k]) == width
    {
      if k < |records| {
        assert (records + [r])[k] == records[k];
      }
    }
  }

  /**
   * The storage the app writes to. A path that cannot be opened for writing (the
   * empty path never can) raises FileNotFoundException, which every writer catches.
   */
  class FileSystem {
    /** The records of each file, in the order they were written. */
    var files: map<string, seq<string>>
    /** Which non-empty paths the device lets the app open. */
    const canOpen: string -> bool

    constructor (canOpen: string -> bool)
      ensures files == map[] && this.canOpen == canOpen
    {
      files := map[];
      this.canOpen := canOpen;
    }

    predicate Opens(path: string) {
      path != "" && canOpen(path)
    }

    function Records(path: string): seq<string>
      reads this
    {
      if path in files then files[path] else []
    }

    /** `new FileOutputStream(path, false)` and one write: the file holds `record` alone. */
    method Create(path: string, record: string) returns (success: bool)
      modifies this
      ensures success == Opens(path)
      ensures files == (if success then old(files)[path := [record]] else old(files))
    {
      success := Opens(path);
      if success {
        files := files[path := [record]];
      }
    }

    /**
     * `new FileOutputStream(path, true)` and at most one write. Opening creates a
     * missing file even when building the record then fails (`record == None`).
     */
    method Append(path: string, record: Option<string>) returns (success: bool)
      modifies this
      ensures success == Opens(path)
      ensures files == (if success
        then old(files)[path := old(Records(path)) + (if record.Some? then [record.value] else [])]
        else old(files))
    {
      success := Opens(path);
      if success {
        var written := if record.Some? then [record.value] else [];
        files := files[path := Records(path) + written];
      }
    }
  }
}
