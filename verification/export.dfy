/** The shape of the exported session data.

    At the end of a session the data rows become a table with the named
    columns Timestamp, Repetitions and Back-Thigh Angle, in that order, one
    line per row; the table is then written as CSV. The CSV text itself, the
    file name and the clock formatting are not modelled: a cell holds the
    typed value that is written. */
module Export {
  import opened Frames
  import Tally

  /** The column names of the exported table, in order. */
  const Columns: seq<string> := ["Timestamp", "Repetitions", "Back-Thigh Angle"]

  datatype Cell = Clock(time: Instant) | Count(n: int) | Degrees(x: real)

  datatype Table = Table(header: seq<string>, lines: seq<seq<Cell>>)

  /** The cells of one data row, in column order. */
  function Cells(row: Tally.Row): seq<Cell> {
    [Clock(row.timestamp), Count(row.repetitions), Degrees(row.angle)]
  }

  /** Reads one table line back as a data row, if it has the row's shape. */
  function ParseRow(line: seq<Cell>): Option<Tally.Row> {
    if |line| == 3 && line[0].Clock? && line[1].Count? && line[1].n >= 0 && line[2].Degrees? then
      Some(Tally.Row(line[0].time, line[1].n, line[2].x))
    else
      None
  }

  /** The table built from the data rows. */
  function ToTable(data: seq<Tally.Row>): (t: Table)
    ensures t.header == Columns
    ensures |t.lines| == |data|
    ensures forall i :: 0 <= i < |data| ==> |t.lines[i]| == |Columns|
  {
    Table(Columns, seq(|data|, i requires 0 <= i < |data| => Cells(data[i])))
  }

  /** Reads a table back as data rows: the header must be the export header
      and every line must have the row shape. */
  function ParseTable(t: Table): Option<seq<Tally.Row>> {
    if t.header != Columns then None else ParseLines(t.lines)
  }

  function ParseLines(lines: seq<seq<Cell>>): Option<seq<Tally.Row>> {
    if lines == [] then Some([])
    else
      match ParseLines(lines[..|lines| - 1])
      case None => None
      case Some(rows) =>
        match ParseRow(lines[|lines| - 1])
        case None => None
        case Some(row) => Some(rows + [row])
  }

  /** A row survives export and re-reading unchanged. */
  lemma RowRoundTrip(row: Tally.Row)
    ensures ParseRow(Cells(row)) == Some(row)
  {
  }

  /** Whatever line reads back as a row is exactly that row's export. */
  lemma ParseRowExact(line: seq<Cell>, row: Tally.Row)
    requires ParseRow(line) == Some(row)
    ensures Cells(row) == line
  {
  }

  /** The exported table reads back as the same rows in the same order. */
  lemma {:induction false} TableRoundTrip(data: seq<Tally.Row>)
    ensures ParseTable(ToTable(data)) == Some(data)
    decreases |data|
  {
    if data != [] {
      var p := data[..|data| - 1];
      TableRoundTrip(p);
      assert ToTable(data).lines[..|data| - 1] == ToTable(p).lines;
      RowRoundTrip(data[|data| - 1]);
      assert p + [data[|data| - 1]] == data;
    }
  }

  /** Whatever table reads back as rows is exactly the export of those rows. */
  lemma {:induction false} ParseTableExact(t: Table, data: seq<Tally.Row>)
    requires ParseTable(t) == Some(data)
    ensures ToTable(data) == t
    decreases |t.lines|
  {
    if t.lines != [] {
      var prefix := Table(t.header, t.lines[..|t.lines| - 1]);
      var rows := ParseLines(prefix.lines).value;
      var row := ParseRow(t.lines[|t.lines| - 1]).value;
      ParseTableExact(prefix, rows);
      ParseRowExact(t.lines[|t.lines| - 1], row);
      assert data == rows + [row];
      assert t.lines == prefix.lines + [t.lines[|t.lines| - 1]];
    } else {
      assert ToTable(data).lines == t.lines;
    }
  }

  /** The position of the first column called `name`, if there is one. */
  function IndexOf(names: seq<string>, name: string): (r: Option<nat>)
    ensures r.Some? ==> r.value < |names| && names[r.value] == name
    ensures r.Some? ==> forall k :: 0 <= k < r.value ==> names[k] != name
    ensures r.None? <==> name !in names
  {
    if names == [] then None
    else if names[0] == name then Some(0)
    else
      match IndexOf(names[1..], name)
      case None => None
      case Some(k) => Some(k + 1)
  }

  /** The cells under the column called `name`, if the table has one. */
  function Column(t: Table, name: string): Option<seq<Cell>>
    requires forall i :: 0 <= i < |t.lines| ==> |t.lines[i]| == |t.header|
  {
    match IndexOf(t.header, name)
    case None => None
    case Some(k) => Some(seq(|t.lines|, i requires 0 <= i < |t.lines| => t.lines[i][k]))
  }

  /** Reading the exported table by column name gives back each field of
      the rows: the three names are distinct and each names its own field. */
  lemma ColumnsByName(data: seq<Tally.Row>)
    ensures var c := Column(ToTable(data), "Timestamp");
            c.Some? && |c.value| == |data|
            && forall i :: 0 <= i < |data| ==> c.value[i] == Clock(data[i].timestamp)
    ensures var c := Column(ToTable(data), "Repetitions");
            c.Some? && |c.value| == |data|
            && forall i :: 0 <= i < |data| ==> c.value[i] == Count(data[i].repetitions)
    ensures var c := Column(ToTable(data), "Back-Thigh Angle");
            c.Some? && |c.value| == |data|
            && forall i :: 0 <= i < |data| ==> c.value[i] == Degrees(data[i].angle)
  {
    assert IndexOf(Columns, "Timestamp") == Some(0);
    assert IndexOf(Columns, "Repetitions") == Some(1);
    assert IndexOf(Columns, "Back-Thigh Angle") == Some(2);
  }
}
