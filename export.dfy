/** The writing side of a processor: `get_iterator` (csv_processor.py) turns rows into CSV
    lines through a DictWriter with `extrasaction="ignore"`. A line is modelled as its
    list of cells; joining them with commas and quoting is the csv module's business. */
module Exporting {
  import opened Values
  import opened Overrides

  /** The output columns: the requested ones or the processor's own, followed in
      error-data mode by `status` and `error`. */
  function ExportColumns(requested: Option<seq<string>>, own: seq<string>, errorData: bool): seq<string> {
    (if requested.Some? then requested.value else own) + (if errorData then ["status", "error"] else [])
  }

  /** The rows written: the requested ones, or else `result_data` in error-data mode and
      `get_rows_to_export()` otherwise. */
  function ExportRows(requested: Option<seq<Row>>, errorData: bool, resultData: seq<Row>, exportable: seq<Row>): seq<Row> {
    if requested.Some? then requested.value else if errorData then resultData else exportable
  }

  /** DictWriter.writerow(row): one cell per column, the empty string (`restval`) for a
      column the row lacks, str() of the value otherwise with None written as empty;
      keys that are not columns are ignored. */
  function Line(columns: seq<string>, row: Row): (cells: seq<string>)
    ensures |cells| == |columns|
    ensures forall k :: 0 <= k < |columns| ==> cells[k] == if columns[k] in row then CellText(row[columns[k]]) else ""
  {
    seq(|columns|, k requires 0 <= k < |columns| => if columns[k] in row then CellText(row[columns[k]]) else "")
  }

  /** `dict(zip(writer.fieldnames, writer.fieldnames))`, the row the header is written from. */
  function HeaderRow(columns: seq<string>): (r: Row)
    ensures r.Keys == set c | c in columns
    ensures forall c :: c in r ==> r[c] == VStr(c)
  {
    map c | c in columns :: VStr(c)
  }

  /** The header line names the columns, in order. */
  lemma HeaderLine(columns: seq<string>)
    ensures Line(columns, HeaderRow(columns)) == columns
  {
  }

  /** A line depends only on the row's cells under the output columns. */
  lemma LineIgnoresExtras(columns: seq<string>, a: Row, b: Row)
    requires forall c :: c in columns ==> (c in a <==> c in b) && (c in a ==> CellText(a[c]) == CellText(b[c]))
    ensures Line(columns, a) == Line(columns, b)
  {
    assert forall k :: 0 <= k < |columns| ==> columns[k] in columns;
  }

  /** In particular a row written in full and the same row cut down to the columns give
      the same line. */
  lemma LineOfRestriction(columns: seq<string>, row: Row)
    ensures Line(columns, row) == Line(columns, map c | c in row && c in columns :: row[c])
  {
    LineIgnoresExtras(columns, row, map c | c in row && c in columns :: row[c]);
  }

  /** Index of the first row whose `preprocess_export_row` raises, or |rows|. */
  function FirstRaise(prepare: Row -> Raises<Row>, rows: seq<Row>): (k: nat)
    ensures k <= |rows|
    ensures forall i :: 0 <= i < k ==> prepare(rows[i]).Returns?
    ensures k < |rows| ==> !prepare(rows[k]).Returns?
    decreases |rows|
  {
    if rows == [] || !prepare(rows[0]).Returns? then 0 else 1 + FirstRaise(prepare, rows[1..])
  }

  /** The first `n` rows as `preprocess_export_row` leaves them, the rest untouched. */
  function PreparedRows(prepare: Row -> Raises<Row>, rows: seq<Row>, n: nat): (r: seq<Row>)
    requires n <= FirstRaise(prepare, rows)
    ensures |r| == |rows|
    ensures forall i :: 0 <= i < n ==> r[i] == prepare(rows[i]).value
    ensures forall i :: n <= i < |rows| ==> r[i] == rows[i]
    decreases n
  {
    if n == 0 then rows
    else PreparedRows(prepare, rows, n - 1)[n - 1 := prepare(rows[n - 1]).value]
  }

  /** The lines yielded for the first `n` rows: the header, then one line per row. */
  function LinesOf(prepare: Row -> Raises<Row>, columns: seq<string>, rows: seq<Row>, n: nat): seq<seq<string>>
    requires n <= FirstRaise(prepare, rows)
    decreases n
  {
    if n == 0 then [Line(columns, HeaderRow(columns))]
    else LinesOf(prepare, columns, rows, n - 1) + [Line(columns, prepare(rows[n - 1]).value)]
  }

  /** What iterating `get_iterator` to its end produces. */
  datatype Output = Output(lines: seq<seq<string>>, rows: seq<Row>, raised: Option<string>)

  /** The header, then each row's line after its `preprocess_export_row`; an exception
      from that hook ends the iteration, with the lines before it already yielded. */
  function ExportSpec(prepare: Row -> Raises<Row>, columns: seq<string>, rows: seq<Row>): Output {
    var k := FirstRaise(prepare, rows);
    Output(LinesOf(prepare, columns, rows, k), PreparedRows(prepare, rows, k),
           if k < |rows| then Some(prepare(rows[k]).message) else None)
  }

  /** The lines of the first `n` rows: the header line naming the columns, then, for each
      row in order, the line of that row as prepared for export. */
  lemma {:induction false} LinesOfShape(prepare: Row -> Raises<Row>, columns: seq<string>, rows: seq<Row>, n: nat)
    requires n <= FirstRaise(prepare, rows)
    ensures |LinesOf(prepare, columns, rows, n)| == n + 1
    ensures LinesOf(prepare, columns, rows, n)[0] == columns
    ensures forall i :: 0 <= i < n ==> LinesOf(prepare, columns, rows, n)[i + 1] == Line(columns, prepare(rows[i]).value)
    decreases n
  {
    if n == 0 {
      HeaderLine(columns);
    } else {
      LinesOfShape(prepare, columns, rows, n - 1);
    }
  }

  /** A complete export writes the header and one line per row, each with one cell per
      column; an interrupted one has written the header and the lines before the
      raising row. */
  lemma ExportShape(prepare: Row -> Raises<Row>, columns: seq<string>, rows: seq<Row>)
    ensures var out := ExportSpec(prepare, columns, rows);
      && (out.raised.None? <==> forall i :: 0 <= i < |rows| ==> prepare(rows[i]).Returns?)
      && |out.lines| == FirstRaise(prepare, rows) + 1
      && out.lines[0] == columns
      && (forall i :: 0 <= i < FirstRaise(prepare, rows) ==> out.lines[i + 1] == Line(columns, prepare(rows[i]).value))
      && (forall l :: l in out.lines ==> |l| == |columns|)
  {
    var k := FirstRaise(prepare, rows);
    LinesOfShape(prepare, columns, rows, k);
    HeaderLine(columns);
    var out := ExportSpec(prepare, columns, rows);
    forall l | l in out.lines
      ensures |l| == |columns|
    {
      var j :| 0 <= j < |out.lines| && out.lines[j] == l;
      if j > 0 {
        assert l == Line(columns, prepare(rows[j - 1]).value);
      }
    }
  }

  /** With a hook that leaves rows alone, the export is the rows, column by column. */
  lemma PlainExport(columns: seq<string>, rows: seq<Row>)
    ensures var out := ExportSpec(Defaults.preprocessExportRow, columns, rows);
      && out.raised.None? && out.rows == rows
      && out.lines == [columns] + seq(|rows|, i requires 0 <= i < |rows| => Line(columns, rows[i]))
  {
    var prepare := Defaults.preprocessExportRow;
    var k := FirstRaise(prepare, rows);
    assert k == |rows|;
    LinesOfShape(prepare, columns, rows, k);
    var out := ExportSpec(prepare, columns, rows);
    assert out.rows == rows;
  }
}
