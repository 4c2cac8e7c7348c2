/** The fixture processors of the repository's tests (tests/test_csv.py) and what the
    model says about the runs those tests make. Files are given as parsed rows; the
    checksum digest stays a parameter. */
module Scenarios {
  import opened Values
  import opened ErrorLogs
  import opened Overrides
  import opened States
  import opened Staging
  import opened Committing
  import opened Files
  import opened Exporting
  import opened Processor
  import Checksums
  import opened Snapshots
  import opened Deferrable

  /** DummyProcessor's class attributes. */
  const DummyConfig: Config := Config(["foo", "bar"], ["foo", "bar"], 20)

  /** DummyProcessor.validate_row: `foo == '3'` is rejected. */
  function DummyValidate(row: Row): Raises<()> {
    if "foo" !in row then RaisesOther(KeyErrorText("foo"))
    else if row["foo"] == VStr("3") then RaisesValidation("3 not allowed")
    else Returns(())
  }

  /** DummyProcessor.process_row: `foo == '4'` raises; every other row is saved, with the
      row marked `undo` as its undo row, whose `foo` is '4' when the row's was '2'. */
  function DummyProcess(row: Row): Raises<Applied> {
    if "foo" !in row then RaisesOther(KeyErrorText("foo"))
    else if row["foo"] == VStr("4") then RaisesOther("4 is not allowed")
    else
      var undo := row["undo" := VBool(true)];
      Returns(Applied(true, Some(if row["foo"] == VStr("2") then undo["foo" := VStr("4")] else undo)))
  }

  function IntRow(foo: int, bar: int): Row {
    map["foo" := VInt(foo), "bar" := VInt(bar)]
  }

  function TextRow(foo: string, bar: string): Row {
    map["foo" := VStr(foo), "bar" := VStr(bar)]
  }

  const DummyHooks: Overrides :=
    Defaults.(validateRow := DummyValidate, processRow := DummyProcess,
              rowsToExport := [IntRow(1, 1), IntRow(2, 2)])

  /** `ContentFile(contents)` of a parsed file: no name, its length as size. */
  function Content(size: nat, header: seq<string>, rows: seq<Row>): CsvFile {
    CsvFile(None, Some(size), Some(header), rows)
  }

  /** 'foo,bar\r\n1,1\r\n2,2\r\n' */
  const DummyCsv: CsvFile := Content(19, ["foo", "bar"], [TextRow("1", "1"), TextRow("2", "2")])

  // ---- writing ----

  /** A plain export of `rows` writes the column names, then the given lines. */
  lemma ExportLines(columns: seq<string>, rows: seq<Row>, lines: seq<seq<string>>)
    requires |lines| == |rows|
    requires forall i :: 0 <= i < |rows| ==> Line(columns, rows[i]) == lines[i]
    ensures ExportSpec(Defaults.preprocessExportRow, columns, rows).lines == [columns] + lines
  {
    PlainExport(columns, rows);
    assert seq(|rows|, i requires 0 <= i < |rows| => Line(columns, rows[i])) == lines;
  }

  /** A DummyProcessor export in plain mode, given its output columns, its rows and the
      line of each row. */
  lemma DummyWrite(columns: Option<seq<string>>, rows: Option<seq<Row>>,
                   cs: seq<string>, written: seq<Row>, lines: seq<seq<string>>)
    requires ExportColumns(columns, DummyConfig.columns, false) == cs
    requires ExportRows(rows, false, [], DummyHooks.rowsToExport) == written
    requires |lines| == |written| && forall i :: 0 <= i < |written| ==> Line(cs, written[i]) == lines[i]
    ensures ExportSpec(DummyHooks.preprocessExportRow, ExportColumns(columns, DummyConfig.columns, false),
                       ExportRows(rows, false, [], DummyHooks.rowsToExport)).lines == [cs] + lines
  {
    assert DummyHooks.preprocessExportRow == Defaults.preprocessExportRow;
    ExportLines(cs, written, lines);
  }

  /** test_write: the exported rows under the class's columns. */
  lemma WriteDefault()
    ensures ExportSpec(DummyHooks.preprocessExportRow, ExportColumns(None, DummyConfig.columns, false),
                       ExportRows(None, false, [], DummyHooks.rowsToExport)).lines
            == [["foo", "bar"], ["1", "1"], ["2", "2"]]
  {
    assert IntToString(1) == "1" && IntToString(2) == "2";
    assert Line(["foo", "bar"], IntRow(1, 1)) == ["1", "1"];
    assert Line(["foo", "bar"], IntRow(2, 2)) == ["2", "2"];
    DummyWrite(None, None, ["foo", "bar"], [IntRow(1, 1), IntRow(2, 2)], [["1", "1"], ["2", "2"]]);
  }

  /** test_write_column_overrides */
  lemma WriteColumnOverride()
    ensures ExportSpec(DummyHooks.preprocessExportRow, ExportColumns(Some(["foo"]), DummyConfig.columns, false),
                       ExportRows(None, false, [], DummyHooks.rowsToExport)).lines
            == [["foo"], ["1"], ["2"]]
  {
    assert IntToString(1) == "1" && IntToString(2) == "2";
    assert Line(["foo"], IntRow(1, 1)) == ["1"];
    assert Line(["foo"], IntRow(2, 2)) == ["2"];
    DummyWrite(Some(["foo"]), None, ["foo"], [IntRow(1, 1), IntRow(2, 2)], [["1"], ["2"]]);
  }

  /** test_write_row_overrides */
  lemma WriteRowOverride()
    ensures ExportSpec(DummyHooks.preprocessExportRow, ExportColumns(None, DummyConfig.columns, false),
                       ExportRows(Some([TextRow("a", "b"), TextRow("c", "d")]), false, [], DummyHooks.rowsToExport)).lines
            == [["foo", "bar"], ["a", "b"], ["c", "d"]]
  {
    assert Line(["foo", "bar"], TextRow("a", "b")) == ["a", "b"];
    assert Line(["foo", "bar"], TextRow("c", "d")) == ["c", "d"];
    DummyWrite(None, Some([TextRow("a", "b"), TextRow("c", "d")]), ["foo", "bar"],
               [TextRow("a", "b"), TextRow("c", "d")], [["a", "b"], ["c", "d"]]);
  }

  function ResultRow(foo: string, bar: string, status: string, error: string): Row {
    map["foo" := VStr(foo), "bar" := VStr(bar), "status" := VStr(status), "error" := VStr(error)]
  }

  const ErrorResults: seq<Row> := [ResultRow("a", "b", "Success", ""), ResultRow("c", "d", "Failure", "Error")]

  /** The output columns in error-data mode, with and without a column override. */
  lemma ErrorColumns()
    ensures ExportColumns(None, DummyConfig.columns, true) == ["foo", "bar", "status", "error"]
    ensures ExportColumns(Some(["bar"]), DummyConfig.columns, true) == ["bar", "status", "error"]
  {
  }

  /** test_get_iterator_error_data */
  lemma IteratorErrorData()
    ensures ExportSpec(DummyHooks.preprocessExportRow, ExportColumns(None, DummyConfig.columns, true),
                       ExportRows(None, true, ErrorResults, DummyHooks.rowsToExport)).lines
            == [["foo", "bar", "status", "error"], ["a", "b", "Success", ""], ["c", "d", "Failure", "Error"]]
  {
    var columns := ["foo", "bar", "status", "error"];
    assert Line(columns, ErrorResults[0]) == ["a", "b", "Success", ""];
    assert Line(columns, ErrorResults[1]) == ["c", "d", "Failure", "Error"];
    ExportLines(columns, ErrorResults, [["a", "b", "Success", ""], ["c", "d", "Failure", "Error"]]);
    assert DummyHooks.preprocessExportRow == Defaults.preprocessExportRow;
    ErrorColumns();
  }

  /** test_get_iterator_error_column_override */
  lemma IteratorErrorColumns()
    ensures ExportSpec(DummyHooks.preprocessExportRow, ExportColumns(Some(["bar"]), DummyConfig.columns, true),
                       ExportRows(None, true, ErrorResults, DummyHooks.rowsToExport)).lines
            == [["bar", "status", "error"], ["b", "Success", ""], ["d", "Failure", "Error"]]
  {
    var columns := ["bar", "status", "error"];
    assert Line(columns, ErrorResults[0]) == ["b", "Success", ""];
    assert Line(columns, ErrorResults[1]) == ["d", "Failure", "Error"];
    ExportLines(columns, ErrorResults, [["b", "Success", ""], ["d", "Failure", "Error"]]);
    assert DummyHooks.preprocessExportRow == Defaults.preprocessExportRow;
    ErrorColumns();
  }

  // ---- reading and committing ----

  /** Both rows of the dummy file pass validation and are staged as they are. */
  lemma DummyRowsStaged()
    ensures Judge(DummyHooks, TextRow("1", "1")) == Staged(TextRow("1", "1"))
    ensures Judge(DummyHooks, TextRow("2", "2")) == Staged(TextRow("2", "2"))
    ensures StageOf(DummyHooks, DummyCsv.rows, 2) == [Entry(1, TextRow("1", "1")), Entry(2, TextRow("2", "2"))]
  {
    assert DummyCsv.rows == [TextRow("1", "1"), TextRow("2", "2")];
    assert StageOf(DummyHooks, DummyCsv.rows, 1) == [Entry(1, TextRow("1", "1"))];
  }

  /** The undo rows DummyProcessor logs for the dummy file. */
  const DummyUndo: seq<Entry> := [
    Entry(1, TextRow("1", "1")["undo" := VBool(true)]),
    Entry(2, TextRow("4", "2")["undo" := VBool(true)])]

  /** The three entry-by-entry definitions on a queue of two entries. */
  lemma PairCounts(process: Row -> Raises<Applied>, a: Entry, b: Entry)
    ensures SavedCount(process, [a, b]) == SavedCount(process, [a]) + SavedCount(process, [b])
    ensures UndoLog(process, [a, b]) == UndoLog(process, [a]) + UndoLog(process, [b])
    ensures Failures(process, [a, b]) == Failures(process, [a]) + Failures(process, [b])
  {
    assert [a, b][1..] == [b];
  }

  /** The three definitions on a single entry. */
  lemma SingleCounts(process: Row -> Raises<Applied>, e: Entry)
    ensures var r := process(e.row);
      && SavedCount(process, [e]) == (if r.Returns? && r.value.didSave then 1 else 0)
      && UndoLog(process, [e]) == (if r.Returns? && r.value.didSave && RowTruthy(r.value.undo) then [Entry(e.rownum, r.value.undo.value)] else [])
      && Failures(process, [e]) == (if !r.Returns? then [Report(r.message, e.rownum)] else [])
  {
    assert [e][1..] == [];
  }

  /** What DummyProcessor.process_row does with the dummy file's rows and their undo rows. */
  lemma DummyProcessRows()
    ensures DummyProcess(TextRow("1", "1")) == Returns(Applied(true, Some(DummyUndo[0].row)))
    ensures DummyProcess(TextRow("2", "2")) == Returns(Applied(true, Some(DummyUndo[1].row)))
    ensures DummyProcess(DummyUndo[0].row).Returns? && DummyProcess(DummyUndo[0].row).value.didSave
    ensures DummyProcess(DummyUndo[1].row) == RaisesOther("4 is not allowed")
  {
    assert TextRow("2", "2")["undo" := VBool(true)]["foo" := VStr("4")] == DummyUndo[1].row;
  }

  /** The dummy file passes the file checks and every row of it is staged. */
  lemma DummyFileAccepted()
    ensures ValidateFile(DummyConfig, DummyCsv).Returns?
    ensures forall i :: 0 <= i < |DummyCsv.rows| ==> Judge(DummyHooks, DummyCsv.rows[i]).Staged?
  {
    DummyRowsStaged();
    assert DummyCsv.rows == [TextRow("1", "1"), TextRow("2", "2")];
  }

  /** test_read, first half: both rows are processed. */
  lemma ReadCounts()
    ensures ProcessFileSpec(DummyConfig, DummyHooks, Initial, DummyCsv, true).0.processedRows == 2
  {
    DummyFileAccepted();
    ProcessFileCounts(DummyConfig, DummyHooks, DummyCsv, true);
    DummyRowsStaged();
  }

  /** test_read, second half: both rows are saved, their undo rows are logged and no
      error is recorded. */
  lemma ReadCommits()
    ensures var s := ProcessFileSpec(DummyConfig, DummyHooks, Initial, DummyCsv, true).0;
      && s.savedRows == 2 && s.stage == [] && s.rollbackRows == DummyUndo && s.errorMessages.IsEmpty()
  {
    DummyFileAccepted();
    DummyRowsStaged();
    DummyProcessRows();
    CommitsTwo(DummyConfig, DummyHooks, DummyCsv, Entry(1, TextRow("1", "1")), Entry(2, TextRow("2", "2")), DummyUndo[0], DummyUndo[1]);
  }

  /** A file whose two rows are staged and saved, each with an undo row. */
  lemma CommitsTwo(cfg: Config, o: Overrides, file: CsvFile, a: Entry, b: Entry, ua: Entry, ub: Entry)
    requires ValidateFile(cfg, file).Returns?
    requires forall i :: 0 <= i < |file.rows| ==> Judge(o, file.rows[i]).Staged?
    requires StageOf(o, file.rows, |file.rows|) == [a, b]
    requires o.processRow(a.row) == Returns(Applied(true, Some(ua.row))) && ua.rownum == a.rownum && ua.row != map[]
    requires o.processRow(b.row) == Returns(Applied(true, Some(ub.row))) && ub.rownum == b.rownum && ub.row != map[]
    ensures var s := ProcessFileSpec(cfg, o, Initial, file, true).0;
      && s.savedRows == 2 && s.stage == [] && s.rollbackRows == [ua, ub] && s.errorMessages.IsEmpty()
  {
    ProcessFileCommits(cfg, o, file);
    TwoSaved(o.processRow, a, b, ua, ub);
  }

  /** Two entries, each saved with an undo row. */
  lemma TwoSaved(process: Row -> Raises<Applied>, a: Entry, b: Entry, ua: Entry, ub: Entry)
    requires process(a.row) == Returns(Applied(true, Some(ua.row))) && ua.rownum == a.rownum && ua.row != map[]
    requires process(b.row) == Returns(Applied(true, Some(ub.row))) && ub.rownum == b.rownum && ub.row != map[]
    ensures SavedCount(process, [a, b]) == 2 && UndoLog(process, [a, b]) == [ua, ub]
    ensures AddAll(Empty, Failures(process, [a, b])).IsEmpty()
  {
    PairCounts(process, a, b);
    SingleCounts(process, a);
    SingleCounts(process, b);
  }

  /** test_rollback: undoing the second row raises, so one undo row is saved and the
      error is recorded. */
  lemma RollbackScenario(st: State)
    requires st.rollbackRows == DummyUndo && st.errorMessages.IsEmpty()
    ensures RollbackSpec(DummyProcess, st).savedRows == 1
    ensures RollbackSpec(DummyProcess, st).errorMessages.Keys() == ["4 is not allowed"]
    ensures RollbackSpec(DummyProcess, st).rollbackRows == []
  {
    RollbackAccounting(DummyProcess, st);
    DummyProcessRows();
    PairCounts(DummyProcess, DummyUndo[0], DummyUndo[1]);
    assert DummyUndo == [DummyUndo[0], DummyUndo[1]];
    assert st.errorMessages == Empty;
    assert AddAll(Empty, [Report("4 is not allowed", 2)]) == Add(Empty, "4 is not allowed", 2);
  }

  // ---- test_file_errors ----

  /** A rejected file leaves its check's message as the only error message. */
  lemma RejectedMessages(cfg: Config, o: Overrides, file: CsvFile, autocommit: bool)
    requires ValidateFile(cfg, file).RaisesValidation?
    ensures StatusOf(ProcessFileSpec(cfg, o, Initial, file, autocommit).0).errorMessages == [ValidateFile(cfg, file).message]
  {
    RejectedFile(cfg, file);
  }

  /** 'foo,baz\r\n': the required column `bar` is missing. */
  lemma MissingColumnScenario()
    ensures StatusOf(ProcessFileSpec(DummyConfig, DummyHooks, Initial, Content(9, ["foo", "baz"], []), true).0).errorMessages
            == ["Missing column: bar"]
  {
    var file := Content(9, ["foo", "baz"], []);
    assert "bar" !in ["foo", "baz"];
    assert ValidateFile(DummyConfig, file) == RaisesValidation("Missing column: bar");
    RejectedMessages(DummyConfig, DummyHooks, file, true);
  }

  /** 'foo,bar\r\n1,2\r\n4,4\r\n5,5\r\n': 24 bytes, over the class's limit of 20. */
  lemma TooLargeScenario()
    ensures StatusOf(ProcessFileSpec(DummyConfig, DummyHooks, Initial,
                                     Content(24, ["foo", "bar"], [TextRow("1", "2"), TextRow("4", "4"), TextRow("5", "5")]), true).0).errorMessages
            == ["The CSV file must be under 20 bytes"]
  {
    var file := Content(24, ["foo", "bar"], [TextRow("1", "2"), TextRow("4", "4"), TextRow("5", "5")]);
    assert NatToString(20) == "20" by {
      assert NatToString(2) == "2";
    }
    assert ValidateFile(DummyConfig, file) == RaisesValidation("The CSV file must be under 20 bytes");
    RejectedMessages(DummyConfig, DummyHooks, file, true);
  }

  /** The status of a state with two result rows, the second one in error, and that
      row's message as the only error. */
  lemma OneErrorRow(st: State, m: string)
    requires |st.resultData| == 2 && !HasError(st.resultData[0]) && HasError(st.resultData[1])
    requires st.errorMessages == AddAll(Empty, [Report(m, 2)])
    ensures var s := StatusOf(st);
      s.errorRows == [st.resultData[1]] && s.errorMessages == [m] && s.saved == st.savedRows
  {
    assert st.resultData[1..][1..] == [];
    assert ErrorRows(st.resultData) == [st.resultData[1]];
    assert AddAll(Empty, [Report(m, 2)]) == Add(Empty, m, 2);
  }

  /** Two rows, the first staged and the second rejected: nothing is committed and the
      rejected row is the one error row. */
  lemma SecondRejected(cfg: Config, o: Overrides, file: CsvFile, m: string)
    requires ValidateFile(cfg, file).Returns?
    requires |file.rows| == 2 && "error" !in file.rows[0] && m != ""
    requires Judge(o, file.rows[0]).Staged? && Judge(o, file.rows[1]) == Failed(m)
    ensures var s := StatusOf(ProcessFileSpec(cfg, o, Initial, file, true).0);
      s.errorRows == [ResultFor(file.rows[1], Failed(m))] && s.errorMessages == [m] && s.saved == 0
  {
    var rows := file.rows;
    assert forall i :: 0 <= i < |rows| ==> !Judge(o, rows[i]).Fatal?;
    ProcessFileAccepted(cfg, o, file, true);
    ProcessFileWaits(cfg, o, file, true);
    PreprocessAccounting(o, Opened(file), rows);
    var st := ProcessFileSpec(cfg, o, Initial, file, true).0;
    assert ReportsOf(o, rows, 2) == [Report(m, 2)] by {
      assert ReportsOf(o, rows, 1) == [];
    }
    OneErrorRow(st, m);
  }

  /** 'foo,bar\r\n1,2\r\n3,3\r\n': the second row fails validation. */
  lemma ValidationErrorScenario()
    ensures var s := StatusOf(ProcessFileSpec(DummyConfig, DummyHooks, Initial,
                                              Content(19, ["foo", "bar"], [TextRow("1", "2"), TextRow("3", "3")]), true).0);
      && s.errorRows == [ResultFor(TextRow("3", "3"), Failed("3 not allowed"))]
      && s.errorRows[0]["foo"] == VStr("3") && s.errorRows[0]["bar"] == VStr("3")
      && s.errorRows[0]["error"] == VStr("3 not allowed") && s.errorRows[0]["status"] == VStr(FailureText)
      && s.errorMessages == ["3 not allowed"]
  {
    var file := Content(19, ["foo", "bar"], [TextRow("1", "2"), TextRow("3", "3")]);
    assert ValidateFile(DummyConfig, file).Returns?;
    assert Judge(DummyHooks, TextRow("1", "2")).Staged?;
    assert Judge(DummyHooks, TextRow("3", "3")) == Failed("3 not allowed");
    SecondRejected(DummyConfig, DummyHooks, file, "3 not allowed");
  }

  /** Marking over a two-entry stage whose first entry returns: only a raising second
      entry of that row marks it. */
  lemma MarkedPair(process: Row -> Raises<Applied>, a: Entry, b: Entry, j: nat, result: Row)
    requires process(a.row).Returns?
    ensures MarkedAt(process, [a, b], j, result) ==
      if !process(b.row).Returns? && b.rownum == j + 1 then MarkFailed(result, process(b.row).message) else result
  {
    assert [a, b][1..] == [b];
    assert [b][1..] == [];
    var here := if !process(b.row).Returns? && b.rownum == j + 1 then MarkFailed(result, process(b.row).message) else result;
    assert MarkedAt(process, [b], j, result) == MarkedAt(process, [], j, here);
    assert MarkedAt(process, [a, b], j, result) == MarkedAt(process, [b], j, result);
  }

  /** Result rows marked by a two-entry stage whose first entry returns and whose second
      raises: the first entry's row is left alone and the second's is marked Failure. */
  lemma MarkedRows(process: Row -> Raises<Applied>, a: Entry, b: Entry, m: string, results: seq<Row>, base: seq<Row>)
    requires |results| == |base| && 1 <= a.rownum < b.rownum <= |base|
    requires forall j :: 0 <= j < |base| ==> results[j] == MarkedAt(process, [a, b], j, base[j])
    requires process(a.row).Returns? && process(b.row) == RaisesOther(m)
    ensures results[a.rownum - 1] == base[a.rownum - 1]
    ensures results[b.rownum - 1] == MarkFailed(base[b.rownum - 1], m)
  {
    MarkedPair(process, a, b, a.rownum - 1, base[a.rownum - 1]);
    MarkedPair(process, a, b, b.rownum - 1, base[b.rownum - 1]);
  }

  /** The result rows of SecondFailsToCommit: the saved row's result is as the pass left
      it, and the raising row's result is the pass's result marked Failure with the
      message. */
  lemma SecondMarked(cfg: Config, o: Overrides, file: CsvFile, a: Entry, b: Entry, m: string)
    requires ValidateFile(cfg, file).Returns?
    requires forall i :: 0 <= i < |file.rows| ==> Judge(o, file.rows[i]).Staged?
    requires StageOf(o, file.rows, |file.rows|) == [a, b]
    requires o.processRow(a.row).Returns? && o.processRow(b.row) == RaisesOther(m)
    ensures var st := ProcessFileSpec(cfg, o, Initial, file, true).0;
      && 1 <= a.rownum < b.rownum <= |file.rows| && |st.resultData| == |file.rows|
      && st.resultData[a.rownum - 1] == ResultsOf(o, file.rows, |file.rows|)[a.rownum - 1]
      && st.resultData[b.rownum - 1] == MarkFailed(ResultsOf(o, file.rows, |file.rows|)[b.rownum - 1], m)
  {
    assert 1 <= a.rownum < b.rownum <= |file.rows| by {
      StageOfNumbered(o, file.rows, |file.rows|);
      assert [a, b][0] == a && [a, b][1] == b;
    }
    assert forall i :: 0 <= i < |file.rows| ==> !Judge(o, file.rows[i]).Fatal? && !Judge(o, file.rows[i]).Failed?;
    var results := ProcessFileSpec(cfg, o, Initial, file, true).0.resultData;
    var base := ResultsOf(o, file.rows, |file.rows|);
    ProcessFileMarks(cfg, o, file);
    MarkedRows(o.processRow, a, b, m, results, base);
  }

  /** Two staged rows, the second raising in `process_row`: one row is saved and the
      exception's message is the one error message (SecondMarked gives the result rows). */
  lemma SecondFailsToCommit(cfg: Config, o: Overrides, file: CsvFile, a: Entry, b: Entry, m: string)
    requires ValidateFile(cfg, file).Returns?
    requires forall i :: 0 <= i < |file.rows| ==> Judge(o, file.rows[i]).Staged?
    requires StageOf(o, file.rows, |file.rows|) == [a, b]
    requires o.processRow(a.row).Returns? && o.processRow(a.row).value.didSave
    requires o.processRow(b.row) == RaisesOther(m)
    ensures var s := StatusOf(ProcessFileSpec(cfg, o, Initial, file, true).0);
      s.saved == 1 && s.errorMessages == [m]
  {
    ProcessFileCommits(cfg, o, file);
    PairCounts(o.processRow, a, b);
    SingleCounts(o.processRow, a);
    SingleCounts(o.processRow, b);
    assert AddAll(Empty, [Report(m, b.rownum)]) == Add(Empty, m, b.rownum);
  }

  /** 'foo,bar\r\n1,2\r\n4,4\r\n': the second row raises when committed. */
  lemma CommitErrorScenario()
    ensures var s := StatusOf(ProcessFileSpec(DummyConfig, DummyHooks, Initial,
                                              Content(19, ["foo", "bar"], [TextRow("1", "2"), TextRow("4", "4")]), true).0);
      s.saved == 1 && s.errorMessages == ["4 is not allowed"]
  {
    var file := Content(19, ["foo", "bar"], [TextRow("1", "2"), TextRow("4", "4")]);
    SecondFileStaged();
    SecondFailsToCommit(DummyConfig, DummyHooks, file, Entry(1, TextRow("1", "2")), Entry(2, TextRow("4", "4")), "4 is not allowed");
  }

  /** The rows of 'foo,bar\r\n1,2\r\n4,4\r\n' are both staged; the second raises in
      `process_row`. */
  lemma SecondFileStaged()
    ensures var rows := [TextRow("1", "2"), TextRow("4", "4")];
      && ValidateFile(DummyConfig, Content(19, ["foo", "bar"], rows)).Returns?
      && (forall i :: 0 <= i < |rows| ==> Judge(DummyHooks, rows[i]).Staged?)
      && StageOf(DummyHooks, rows, 2) == [Entry(1, TextRow("1", "2")), Entry(2, TextRow("4", "4"))]
      && DummyProcess(TextRow("1", "2")).Returns? && DummyProcess(TextRow("1", "2")).value.didSave
      && DummyProcess(TextRow("4", "4")) == RaisesOther("4 is not allowed")
  {
    var rows := [TextRow("1", "2"), TextRow("4", "4")];
    assert Judge(DummyHooks, rows[0]) == Staged(rows[0]);
    assert Judge(DummyHooks, rows[1]) == Staged(rows[1]);
    assert StageOf(DummyHooks, rows, 1) == [Entry(1, TextRow("1", "2"))];
  }

  // ---- DummyChecksumProcessor ----

  /** Its checksum attributes, with the deployment's secret. */
  function ChecksumCfg(secret: string): Checksums.ChecksumConfig {
    Checksums.ChecksumConfig(secret, ["foo", "bar"], "csum", 4)
  }

  const ChecksumColumns: seq<string> := ["foo", "bar", "csum"]

  /** test_checksum: an exported row carries a five-character checksum and validates; a
      shorter checksum such as '@def' is a ValidationError. */
  lemma ChecksumScenario(md5: Checksums.Digest, secret: string)
    ensures var cfg := ChecksumCfg(secret);
      var row := map["foo" := VInt(1), "bar" := VStr("hello")];
      var exported := Checksums.ExportRow(md5, cfg, row);
      && exported.Returns? && "csum" in exported.value
      && exported.value["csum"].VStr? && |exported.value["csum"].s| == 5 && exported.value["csum"].s[0] == '@'
      && Checksums.ValidateRow(md5, cfg, exported.value) == Returns(())
      && Checksums.ValidateRow(md5, cfg, exported.value["csum" := VStr("@def")])
         == RaisesValidation(Checksums.MismatchText(["foo", "bar"]))
  {
    var cfg := ChecksumCfg(secret);
    var row := map["foo" := VInt(1), "bar" := VStr("hello")];
    Checksums.ChecksumShape(md5, cfg, row);
    Checksums.ExportThenValidate(md5, cfg, row);
    var exported := Checksums.ExportRow(md5, cfg, row).value;
    Checksums.ChecksumByText(md5, cfg, row, exported["csum" := VStr("@def")]);
  }

  /** test_checksum_zero: the checksum of 0 and None is that of '0' and '', so the row
      read back as text validates with the exported checksum. */
  lemma ChecksumZeroScenario(md5: Checksums.Digest, secret: string)
    ensures var cfg := ChecksumCfg(secret);
      var exported := Checksums.ExportRow(md5, cfg, map["foo" := VInt(0), "bar" := VNull]);
      && exported.Returns?
      && Checksums.ValidateRow(md5, cfg, exported.value) == Returns(())
      && Checksums.ValidateRow(md5, cfg, map["foo" := VStr("0"), "bar" := VStr(""), "csum" := exported.value["csum"]])
         == Returns(())
  {
    var cfg := ChecksumCfg(secret);
    var row := map["foo" := VInt(0), "bar" := VNull];
    Checksums.ExportThenValidate(md5, cfg, row);
    var equiv := map["foo" := VStr("0"), "bar" := VStr(""), "csum" := Checksums.ExportRow(md5, cfg, row).value["csum"]];
    assert CellText(VInt(0)) == "0";
    Checksums.ChecksumByText(md5, cfg, row, equiv);
  }

  /** A pass in which every row is staged stages them all. */
  lemma {:induction false} AllStaged(o: Overrides, rows: seq<Row>, n: nat)
    requires n <= |rows|
    requires forall i :: 0 <= i < n ==> Judge(o, rows[i]).Staged?
    ensures |StageOf(o, rows, n)| == n
    decreases n
  {
    if n > 0 {
      AllStaged(o, rows, n - 1);
    }
  }

  /** An acceptable file whose rows are all staged has all of them processed. */
  lemma AllStagedCount(cfg: Config, o: Overrides, file: CsvFile)
    requires ValidateFile(cfg, file).Returns?
    requires forall i :: 0 <= i < |file.rows| ==> Judge(o, file.rows[i]).Staged?
    ensures ProcessFileSpec(cfg, o, Initial, file, true).0.processedRows == |file.rows|
  {
    ProcessFileCounts(cfg, o, file, true);
    AllStaged(o, file.rows, |file.rows|);
  }

  /** What `get_iterator` writes from `rows` under `columns`, as DictReader reads it back:
      no size, the columns as header, and one row of text cells per exported row. */
  function WrittenFile(md5: Checksums.Digest, cfg: Checksums.ChecksumConfig, columns: seq<string>, rows: seq<Row>): CsvFile
    requires forall i :: 0 <= i < |rows| ==> forall c :: c in cfg.columns ==> c in rows[i]
  {
    CsvFile(None, None, Some(columns),
            seq(|rows|, i requires 0 <= i < |rows| =>
              Checksums.ReadLine(columns, Line(columns, Checksums.ExportRow(md5, cfg, rows[i]).value))))
  }

  /** A row exported and read back is staged by a checksum processor whose base class
      keeps the default `preprocess_row`. */
  lemma ReadBackJudged(md5: Checksums.Digest, cfg: Checksums.ChecksumConfig, base: Overrides, columns: seq<string>, row: Row)
    requires cfg.fieldname !in cfg.columns && cfg.fieldname in columns
    requires forall c :: c in cfg.columns ==> c in row && c in columns
    requires base.preprocessRow == Defaults.preprocessRow
    ensures Judge(Checksums.WithChecksum(md5, cfg, base),
                  Checksums.ReadLine(columns, Line(columns, Checksums.ExportRow(md5, cfg, row).value))).Staged?
  {
    var back := Checksums.ReadLine(columns, Line(columns, Checksums.ExportRow(md5, cfg, row).value));
    Checksums.WrittenRowValidates(md5, cfg, columns, row);
    assert cfg.fieldname in back;
  }

  /** Every row of a written file is processed again when the file is read back, as long
      as the header has the required columns. */
  lemma WrittenFileProcessed(md5: Checksums.Digest, cfg: Checksums.ChecksumConfig, base: Overrides, fileCfg: Config, rows: seq<Row>)
    requires cfg.fieldname !in cfg.columns && cfg.fieldname in fileCfg.columns
    requires forall c :: c in cfg.columns ==> c in fileCfg.columns
    requires forall c :: c in fileCfg.requiredColumns ==> c in fileCfg.columns
    requires base.preprocessRow == Defaults.preprocessRow
    requires forall i :: 0 <= i < |rows| ==> forall c :: c in cfg.columns ==> c in rows[i]
    ensures ProcessFileSpec(fileCfg, Checksums.WithChecksum(md5, cfg, base), Initial,
                            WrittenFile(md5, cfg, fileCfg.columns, rows), true).0.processedRows == |rows|
  {
    var file := WrittenFile(md5, cfg, fileCfg.columns, rows);
    var o := Checksums.WithChecksum(md5, cfg, base);
    forall i | 0 <= i < |file.rows|
      ensures Judge(o, file.rows[i]).Staged?
    {
      ReadBackJudged(md5, cfg, base, fileCfg.columns, rows[i]);
    }
    AllStagedCount(fileCfg, o, file);
  }

  /** test_write_read: the file DummyChecksumProcessor writes (its two exported rows) is
      read back with both rows processed. */
  lemma WriteReadScenario(md5: Checksums.Digest, secret: string)
    ensures var cfg := ChecksumCfg(secret);
      ProcessFileSpec(Config(ChecksumColumns, ["foo", "bar"], 20), Checksums.WithChecksum(md5, cfg, DummyHooks), Initial,
                      WrittenFile(md5, cfg, ChecksumColumns, DummyHooks.rowsToExport), true).0.processedRows == 2
  {
    WrittenFileProcessed(md5, ChecksumCfg(secret), DummyHooks, Config(ChecksumColumns, ["foo", "bar"], 20), DummyHooks.rowsToExport);
  }

  // ---- deferred commits ----

  /** DummyDeferrableProcessor: DummyProcessor with `size_to_defer = 1` and unique path
      'test'. */
  const DummyDeferrable: ProcessorClass :=
    ProcessorClass(ClassId("tests.test_csv", "DummyDeferrableProcessor"), DummyConfig, DummyHooks, 1, Some("test"), None)

  /** The user DummyDeferrableProcessorSavingUser's `save` passes as `operating_user`. */
  const SubclassUser := "user_specified_by_client"

  const DummySavingUser: ProcessorClass :=
    ProcessorClass(ClassId("tests.test_csv", "DummyDeferrableProcessorSavingUser"), DummyConfig, DummyHooks, 1,
                   Some("test"), Some(SubclassUser))

  /** What importing a recorded module finds: the two test classes. */
  function TestClasses(c: ClassId): Option<ProcessorClass> {
    if c == DummyDeferrable.id then Some(DummyDeferrable)
    else if c == DummySavingUser.id then Some(DummySavingUser)
    else None
  }

  /** A fresh processor that reads a file whose rows are all staged ends its pass with
      those rows staged, numbered within the snapshot, and no error. */
  lemma FreshStage(o: Overrides, file: CsvFile)
    requires forall i :: 0 <= i < |file.rows| ==> Judge(o, file.rows[i]).Staged?
    ensures var (st, raised) := PreprocessSpec(o, Opened(file), file.rows);
      && raised.None? && st.stage == StageOf(o, file.rows, |file.rows|)
      && Indexable(st.stage, st.resultData) && st.errorMessages.IsEmpty()
  {
    PreprocessAccounting(o, Opened(file), file.rows);
    PreprocessErrors(o, Opened(file), file.rows);
    FreshPassNumbered(o, Opened(file), file.rows);
    assert [] + StageOf(o, file.rows, |file.rows|) == StageOf(o, file.rows, |file.rows|);
  }

  /** The dummy file on a fresh processor, up to its commit. */
  const DummyStaged: State := PreprocessSpec(DummyHooks, Opened(DummyCsv), DummyCsv.rows).0

  /** `process_file` reads the dummy file and stages both rows; committing them saves two. */
  lemma DummyStagedFacts()
    ensures ReadFileSpec(DummyConfig, Initial, DummyCsv) == (Opened(DummyCsv), Reader)
    ensures PreprocessSpec(DummyHooks, Opened(DummyCsv), DummyCsv.rows).1.None?
    ensures DummyStaged.stage == [Entry(1, TextRow("1", "1")), Entry(2, TextRow("2", "2"))]
    ensures Indexable(DummyStaged.stage, DummyStaged.resultData) && CanCommit(DummyStaged)
    ensures SavedCount(DummyProcess, DummyStaged.stage) == 2
  {
    DummyFileAccepted();
    AcceptedFile(DummyConfig, Initial, DummyCsv);
    DummyRowsStaged();
    FreshStage(DummyHooks, DummyCsv);
    DummyProcessRows();
    TwoSaved(DummyProcess, Entry(1, TextRow("1", "1")), Entry(2, TextRow("2", "2")), DummyUndo[0], DummyUndo[1]);
  }

  /** test_defer and the two operating-user tests: the two staged rows are more than
      `size_to_defer`, so the commit runs as a task that finishes at once; the status
      reports both rows saved, and three operations are recorded ('stage' twice, then
      'commit'), all by the request's user, or by the subclass's own user when `save` is
      overridden to pass one. */
  lemma DeferScenario(cls: ProcessorClass, user: Option<string>, taskId: string, attrs: Attrs, records: seq<OperationRecord>,
                      st2: State, attrs2: Attrs, records2: seq<OperationRecord>, raised: Option<string>)
    requires cls == DummyDeferrable || cls == DummySavingUser
    requires CommitDone(cls, TestClasses, user, false, true, taskId, DummyStaged, attrs, records, st2, attrs2, records2, raised)
    ensures raised.None? && StatusFor(st2, attrs2).base.saved == 2
    ensures |records2| == |records| + 3
    ensures forall k :: |records| <= k < |records2| ==>
      records2[k].user == if cls == DummySavingUser then Some(SubclassUser) else user
    ensures records2[|records|].operation == records2[|records| + 1].operation == "stage"
    ensures records2[|records| + 2].operation == "commit"
  {
    DummyStagedFacts();
    FinishedStatus(cls, TestClasses, user, taskId, DummyStaged, attrs, records, st2, attrs2, records2, raised);
  }

  /** test_defer's `test_set = {1, 2, 3}` is saved as a list of its members. */
  lemma DeferSavesSet(cls: ProcessorClass, user: Option<string>, taskId: string, records: seq<OperationRecord>,
                      st2: State, attrs2: Attrs, records2: seq<OperationRecord>, raised: Option<string>)
    requires cls == DummyDeferrable
    requires CommitDone(cls, TestClasses, user, false, true, taskId, DummyStaged,
                        [("test_set", SetOf({VInt(1), VInt(2), VInt(3)}))], records, st2, attrs2, records2, raised)
    ensures |records2| > |records|
    ensures var saved := records2[|records|].data.attrs;
      |saved| == 1 && saved[0].0 == "test_set" && saved[0].1.ListOf? && ListsSet(saved[0].1.items, {VInt(1), VInt(2), VInt(3)})
  {
    DummyStagedFacts();
    var attrs := [("test_set", SetOf({VInt(1), VInt(2), VInt(3)}))];
    FinishedShape(cls, TestClasses, user, taskId, DummyStaged, attrs, records, st2, attrs2, records2, raised);
    assert Public(attrs) == attrs by {
      assert attrs == [] + [attrs[0]];
      assert !Private("test_set");
    }
  }

  /** 'foo,bar\r\n1,2\r\n' on a fresh processor, up to its commit. */
  const SmallCsv: CsvFile := Content(14, ["foo", "bar"], [TextRow("1", "2")])

  const SmallStaged: State := PreprocessSpec(DummyHooks, Opened(SmallCsv), SmallCsv.rows).0

  /** The one row of the small file is staged. */
  lemma SmallStagedFacts()
    ensures ValidateFile(DummyConfig, SmallCsv).Returns?
    ensures PreprocessSpec(DummyHooks, Opened(SmallCsv), SmallCsv.rows).1.None?
    ensures SmallStaged.stage == [Entry(1, TextRow("1", "2"))]
    ensures Indexable(SmallStaged.stage, SmallStaged.resultData) && CanCommit(SmallStaged)
  {
    assert DummyValidate(TextRow("1", "2")) == Returns(());
    assert Judge(DummyHooks, TextRow("1", "2")) == Staged(TextRow("1", "2"));
    FreshStage(DummyHooks, SmallCsv);
    assert StageOf(DummyHooks, SmallCsv.rows, 1) == [Entry(1, TextRow("1", "2"))];
  }

  /** A synchronous commit of a fresh DummyDeferrableProcessor whose stage is one row. */
  lemma OneRowCommit(user: Option<string>, ready: bool, taskId: string, st: State, records: seq<OperationRecord>,
                     st2: State, attrs2: Attrs, records2: seq<OperationRecord>, raised: Option<string>)
    requires CommitDone(DummyDeferrable, TestClasses, user, false, ready, taskId, st, [], records,
                        st2, attrs2, records2, raised)
    requires st.stage == [Entry(1, TextRow("1", "2"))] && Indexable(st.stage, st.resultData)
    ensures raised.None? && !StatusFor(st2, attrs2).waiting && st2.savedRows == 1
    ensures |records2| == |records| + 1 && records2[|records|].user == user
  {
    SyncCommit(DummyDeferrable, TestClasses, user, ready, taskId, st, [], records, st2, attrs2, records2, raised);
    SingleCounts(DummyProcess, Entry(1, TextRow("1", "2")));
    assert Lookup(attrs2, "_status").None? && Lookup(attrs2, "result_id").None?;
  }

  /** test_defer_too_small: one staged row is not more than `size_to_defer`, so the
      commit runs in place; nothing is waited for, the row is saved, and an operation
      is recorded. */
  lemma DeferTooSmallScenario(user: Option<string>, ready: bool, taskId: string, records: seq<OperationRecord>,
                              st2: State, attrs2: Attrs, records2: seq<OperationRecord>, raised: Option<string>)
    requires CommitDone(DummyDeferrable, TestClasses, user, false, ready, taskId, SmallStaged, [], records,
                        st2, attrs2, records2, raised)
    ensures raised.None? && !StatusFor(st2, attrs2).waiting && st2.savedRows == 1
    ensures |records2| == |records| + 1 && records2[|records|].user == user
  {
    SmallStagedFacts();
    OneRowCommit(user, ready, taskId, SmallStaged, records, st2, attrs2, records2, raised);
  }

  // ---- the loaded processor's error map ----

  /** A file whose first row DummyProcessor cannot save: both rows pass validation. */
  const FourFirstCsv: CsvFile := Content(19, ["foo", "bar"], [TextRow("4", "4"), TextRow("1", "1")])

  const FourFirstStaged: State := PreprocessSpec(DummyHooks, Opened(FourFirstCsv), FourFirstCsv.rows).0

  /** Both rows are staged, more than `size_to_defer`, with no error yet. */
  lemma FourFirstStagedFacts()
    ensures ValidateFile(DummyConfig, FourFirstCsv).Returns?
    ensures PreprocessSpec(DummyHooks, Opened(FourFirstCsv), FourFirstCsv.rows).1.None?
    ensures FourFirstStaged.stage == [Entry(1, TextRow("4", "4")), Entry(2, TextRow("1", "1"))]
    ensures |FourFirstStaged.stage| > DummyDeferrable.sizeToDefer
    ensures Indexable(FourFirstStaged.stage, FourFirstStaged.resultData) && FourFirstStaged.errorMessages.IsEmpty()
  {
    assert Judge(DummyHooks, TextRow("4", "4")) == Staged(TextRow("4", "4"));
    assert Judge(DummyHooks, TextRow("1", "1")) == Staged(TextRow("1", "1"));
    assert FourFirstCsv.rows == [TextRow("4", "4"), TextRow("1", "1")];
    FreshStage(DummyHooks, FourFirstCsv);
    assert StageOf(DummyHooks, FourFirstCsv.rows, 1) == [Entry(1, TextRow("4", "4"))];
  }

  /** The deferred task loads this state from its record and commits it: as written, the
      first row's ValueError is recorded into a plain dict and raises KeyError; with the
      processor's own error map the commit completes. */
  lemma LoadedCommitScenario()
    ensures PlainCommitSpec(DummyProcess, FourFirstStaged).1 == Some(KeyErrorText("4 is not allowed"))
    ensures CommitSpec(DummyProcess, FourFirstStaged).1 == None
  {
    FourFirstStagedFacts();
    assert DummyProcess(TextRow("4", "4")) == RaisesOther("4 is not allowed");
    assert !Has(FourFirstStaged.errorMessages, "4 is not allowed");
    PlainCommitRaises(DummyProcess, FourFirstStaged);
  }
}
