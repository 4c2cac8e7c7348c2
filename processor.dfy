/** The CSVProcessor object (csv_processor.py): its instance attributes as fields and its
    operations as methods that update them in place, each proved against the functions
    of Files, Staging and Committing. */
module Processor {
  import opened Values
  import opened ErrorLogs
  import opened Overrides
  import opened States
  import opened Staging
  import opened Committing
  import opened Files
  import opened Exporting

  /** `process_file(thefile, autocommit)` on state `st`: read and check the file, run the
      pass over its rows, and commit only when asked to and `can_commit` holds. */
  function ProcessFileSpec(cfg: Config, o: Overrides, st: State, file: CsvFile, autocommit: bool): (r: (State, Option<string>))
  {
    var (s1, read) := ReadFileSpec(cfg, st, file);
    match read
    case ReadRaised(m) => (s1, Some(m))
    case NoReader => (s1, None)
    case Reader =>
      var (s2, raised) := PreprocessSpec(o, s1, file.rows);
      if raised.None? && autocommit && CanCommit(s2) then CommitSpec(o.processRow, s2)
      else (s2, raised)
  }

  /** The state after `read_file` has accepted a file, on a fresh processor. */
  function Opened(file: CsvFile): State {
    Initial.(filename := if file.name.Some? then file.name.value else "")
  }

  /** An accepted file goes through the pass, then through `commit` only when asked to
      and `can_commit` holds. */
  lemma ProcessFileAccepted(cfg: Config, o: Overrides, file: CsvFile, autocommit: bool)
    requires ValidateFile(cfg, file).Returns?
    requires forall i :: 0 <= i < |file.rows| ==> !Judge(o, file.rows[i]).Fatal?
    ensures var s := PreprocessSpec(o, Opened(file), file.rows).0;
      && PreprocessSpec(o, Opened(file), file.rows).1 == None
      && ProcessFileSpec(cfg, o, Initial, file, autocommit) ==
           if autocommit && CanCommit(s) then CommitSpec(o.processRow, s) else (s, None)
  {
    AcceptedFile(cfg, Initial, file);
    PreprocessAccounting(o, Opened(file), file.rows);
  }

  /** A fresh processor given an acceptable file whose hooks raise only ValidationErrors
      raises nothing, and counts every row and every staged row. */
  lemma ProcessFileCounts(cfg: Config, o: Overrides, file: CsvFile, autocommit: bool)
    requires ValidateFile(cfg, file).Returns?
    requires forall i :: 0 <= i < |file.rows| ==> !Judge(o, file.rows[i]).Fatal?
    ensures var (s, raised) := ProcessFileSpec(cfg, o, Initial, file, autocommit);
      && raised.None?
      && s.totalRows == |file.rows|
      && s.processedRows == |StageOf(o, file.rows, |file.rows|)|
  {
    ProcessFileAccepted(cfg, o, file, autocommit);
    PreprocessAccounting(o, Opened(file), file.rows);
    FreshPassNumbered(o, Opened(file), file.rows);
    var s := PreprocessSpec(o, Opened(file), file.rows).0;
    if autocommit && CanCommit(s) {
      CommitAccounting(o.processRow, s);
    }
  }

  /** With autocommit and no row rejected, every staged row is committed: the saved count,
      the undo queue and the recorded errors are those of the staged entries, and the
      stage is left empty. */
  lemma ProcessFileCommits(cfg: Config, o: Overrides, file: CsvFile)
    requires ValidateFile(cfg, file).Returns?
    requires forall i :: 0 <= i < |file.rows| ==> !Judge(o, file.rows[i]).Fatal?
    requires forall i :: 0 <= i < |file.rows| ==> !Judge(o, file.rows[i]).Failed?
    requires StageOf(o, file.rows, |file.rows|) != []
    ensures var s := ProcessFileSpec(cfg, o, Initial, file, true).0;
      var staged := StageOf(o, file.rows, |file.rows|);
      && s.stage == []
      && s.savedRows == SavedCount(o.processRow, staged)
      && s.rollbackRows == UndoLog(o.processRow, staged)
      && s.errorMessages == AddAll(Empty, Failures(o.processRow, staged))
  {
    ProcessFileAccepted(cfg, o, file, true);
    PreprocessAccounting(o, Opened(file), file.rows);
    PreprocessErrors(o, Opened(file), file.rows);
    FreshPassNumbered(o, Opened(file), file.rows);
    var s := PreprocessSpec(o, Opened(file), file.rows).0;
    assert s.stage == StageOf(o, file.rows, |file.rows|);
    assert CanCommit(s);
    CommitAccounting(o.processRow, s);
    assert s.errorMessages == Empty;
  }

  /** With autocommit and no row rejected, each result row ends as the pass left it, then
      marked Failure with the message of each staged entry of that row that raised in
      `process_row`. */
  lemma ProcessFileMarks(cfg: Config, o: Overrides, file: CsvFile)
    requires ValidateFile(cfg, file).Returns?
    requires forall i :: 0 <= i < |file.rows| ==> !Judge(o, file.rows[i]).Fatal?
    requires forall i :: 0 <= i < |file.rows| ==> !Judge(o, file.rows[i]).Failed?
    requires StageOf(o, file.rows, |file.rows|) != []
    ensures var s := ProcessFileSpec(cfg, o, Initial, file, true).0;
      var staged := StageOf(o, file.rows, |file.rows|);
      && |s.resultData| == |file.rows|
      && forall j :: 0 <= j < |file.rows| ==>
           s.resultData[j] == MarkedAt(o.processRow, staged, j, ResultFor(file.rows[j], Judge(o, file.rows[j])))
  {
    ProcessFileAccepted(cfg, o, file, true);
    PreprocessAccounting(o, Opened(file), file.rows);
    PreprocessErrors(o, Opened(file), file.rows);
    FreshPassNumbered(o, Opened(file), file.rows);
    var s := PreprocessSpec(o, Opened(file), file.rows).0;
    assert s.stage == StageOf(o, file.rows, |file.rows|);
    assert s.errorMessages == Empty;
    assert CanCommit(s);
    CommitLoopResults(o.processRow, 0, s);
  }

  /** Without autocommit, or once a row is rejected, the staged rows wait: nothing is
      saved and nothing can be undone. */
  lemma ProcessFileWaits(cfg: Config, o: Overrides, file: CsvFile, autocommit: bool)
    requires ValidateFile(cfg, file).Returns?
    requires forall i :: 0 <= i < |file.rows| ==> !Judge(o, file.rows[i]).Fatal?
    requires !autocommit || exists i :: 0 <= i < |file.rows| && Judge(o, file.rows[i]).Failed?
    ensures var s := ProcessFileSpec(cfg, o, Initial, file, autocommit).0;
      && s.stage == StageOf(o, file.rows, |file.rows|)
      && s.savedRows == 0 && s.rollbackRows == []
  {
    ProcessFileAccepted(cfg, o, file, autocommit);
    PreprocessAccounting(o, Opened(file), file.rows);
    PreprocessErrors(o, Opened(file), file.rows);
    assert [] + StageOf(o, file.rows, |file.rows|) == StageOf(o, file.rows, |file.rows|);
  }

  class CsvProcessor {
    /** `columns`, `required_columns` and `max_file_size` of the processor's class. */
    const config: Config
    /** The class's `validate_row`, `preprocess_row`, `process_row` and `preprocess_export_row`. */
    const hooks: Overrides

    var filename: string
    var totalRows: nat
    var processedRows: nat
    var savedRows: nat
    var stage: seq<Entry>
    var rollbackRows: seq<Entry>
    var resultData: seq<Row>
    var errorMessages: ErrorLog

    /** The attributes as one value. */
    function Model(): State
      reads this
    {
      State(filename, totalRows, processedRows, savedRows, stage, rollbackRows, resultData, errorMessages)
    }

    /** `__init__()` without keyword arguments. */
    constructor (config: Config, hooks: Overrides)
      ensures Model() == Initial
      ensures this.config == config && this.hooks == hooks
    {
      this.config := config;
      this.hooks := hooks;
      filename, totalRows, processedRows, savedRows := "", 0, 0, 0;
      stage, rollbackRows, resultData := [], [], [];
      errorMessages := Empty;
    }

    /** `__init__(**state)`: the defaults, then every attribute of a saved state. */
    constructor FromState(config: Config, hooks: Overrides, st: State)
      ensures Model() == st
      ensures this.config == config && this.hooks == hooks
    {
      this.config := config;
      this.hooks := hooks;
      filename, totalRows, processedRows, savedRows := st.filename, st.totalRows, st.processedRows, st.savedRows;
      stage, rollbackRows, resultData := st.stage, st.rollbackRows, st.resultData;
      errorMessages := st.errorMessages;
    }

    /** `add_error(message, row)`. */
    method AddError(message: string, row: nat)
      modifies this
      ensures Model() == old(Model()).(errorMessages := Add(old(errorMessages), message, row))
    {
      errorMessages := Add(errorMessages, message, row);
    }

    /** `can_commit` */
    predicate CanCommit()
      reads this
    {
      States.CanCommit(Model())
    }

    /** `read_file(thefile)`. */
    method ReadFile(file: CsvFile) returns (read: Read)
      modifies this
      ensures (Model(), read) == ReadFileSpec(config, old(Model()), file)
    {
      filename := if file.name.Some? then file.name.value else "";
      match ValidateFile(config, file)
      case Returns(_) =>
        read := Reader;
      case RaisesValidation(m) =>
        AddError(m, 0);
        read := NoReader;
      case RaisesOther(m) =>
        read := ReadRaised(m);
    }

    /** One iteration of `preprocess_file`'s loop, for row number `rownum`: the try block
        ends in `verdict`, the state takes that verdict's RowStep, and `result` is the
        row's ResultDict. */
    method PreprocessRow(row: Row, rownum: nat) returns (result: Row, verdict: Verdict)
      modifies this
      ensures verdict == Judge(hooks, row) && result == ResultFor(row, verdict)
      ensures Model() == RowStep(old(Model()), rownum, verdict)
    {
      result := NewResult(row);
      var checked := hooks.validateRow(row);
      if checked.RaisesOther? {
        return result, Fatal(checked.message);
      }
      if checked.RaisesValidation? {
        AddError(checked.message, rownum);
        result := MarkFailed(result, checked.message);
        return result, Failed(checked.message);
      }
      var pre := hooks.preprocessRow(row);
      if pre.RaisesOther? {
        return result, Fatal(pre.message);
      }
      if pre.RaisesValidation? {
        AddError(pre.message, rownum);
        result := MarkFailed(result, pre.message);
        verdict := Failed(pre.message);
      } else if RowTruthy(pre.value) {
        stage := stage + [Entry(rownum, pre.value.value)];
        verdict := Staged(pre.value.value);
      } else {
        result := result["status" := VStr(NoActionText)];
        verdict := NoAction;
      }
    }

    /** `preprocess_file(reader)`; `raised` is an exception other than ValidationError
        that escaped a hook, after which the snapshot and the counters are not assigned. */
    method PreprocessFile(rows: seq<Row>) returns (raised: Option<string>)
      modifies this
      ensures (Model(), raised) == PreprocessSpec(hooks, old(Model()), rows)
    {
      ghost var start := Model();
      var processed := 0;
      var snapshot: seq<Row> := [];
      var i := 0;
      while i < |rows|
        invariant 0 <= i <= |rows|
        invariant i <= FatalAt(hooks, rows)
        invariant Model() == Passed(hooks, start, rows, i)
        invariant snapshot == ResultsOf(hooks, rows, i)
        invariant processed == |StageOf(hooks, rows, i)|
      {
        PassStep(hooks, start, rows, i);
        var result, verdict := PreprocessRow(rows[i], i + 1);
        if verdict.Fatal? {
          assert FatalAt(hooks, rows) == i;
          return Some(verdict.message);
        }
        PastRow(hooks, rows, i);
        if verdict.Staged? {
          processed := processed + 1;
        }
        snapshot := snapshot + [result];
        i := i + 1;
      }
      resultData := snapshot;
      totalRows := i;
      processedRows := processed;
      raised := None;
    }

    /** `commit()`; `raised` is the IndexError of a row number outside the snapshot,
        after which `saved_rows` is not assigned. */
    method Commit() returns (raised: Option<string>)
      modifies this
      ensures (Model(), raised) == CommitSpec(hooks.processRow, old(Model()))
    {
      var saved := 0;
      while stage != []
        invariant CommitLoop(hooks.processRow, saved, Model()) == CommitLoop(hooks.processRow, 0, old(Model()))
        decreases |stage|
      {
        ghost var before, savedBefore := Model(), saved;
        var entry := stage[0];
        stage := stage[1..];
        var outcome := hooks.processRow(entry.row);
        if outcome.Returns? {
          if outcome.value.didSave {
            saved := saved + 1;
            if RowTruthy(outcome.value.undo) {
              rollbackRows := rollbackRows + [Entry(entry.rownum, outcome.value.undo.value)];
            }
          }
          assert CommitStep(hooks.processRow, savedBefore, before) == Drain(saved, Model(), None);
        } else {
          AddError(outcome.message, entry.rownum);
          if resultData != [] {
            var j := PyIndex(entry.rownum - 1, |resultData|);
            if j.None? {
              assert CommitStep(hooks.processRow, savedBefore, before) == Drain(saved, Model(), Some(IndexErrorText));
              return Some(IndexErrorText);
            }
            resultData := resultData[j.value := MarkFailed(resultData[j.value], outcome.message)];
            assert CommitStep(hooks.processRow, savedBefore, before) == Drain(saved, Model(), None);
          } else {
            assert CommitStep(hooks.processRow, savedBefore, before) == Drain(saved, Model(), None);
          }
        }
      }
      savedRows := saved;
      raised := None;
    }

    /** `rollback()` */
    method Rollback()
      modifies this
      ensures Model() == RollbackSpec(hooks.processRow, old(Model()))
    {
      var saved := 0;
      while rollbackRows != []
        invariant RollbackLoop(hooks.processRow, saved, Model()) == RollbackLoop(hooks.processRow, 0, old(Model()))
        decreases |rollbackRows|
      {
        var entry := rollbackRows[0];
        rollbackRows := rollbackRows[1..];
        var outcome := hooks.processRow(entry.row);
        if outcome.Returns? {
          if outcome.value.didSave {
            saved := saved + 1;
          }
        } else {
          AddError(outcome.message, entry.rownum);
        }
      }
      savedRows := saved;
    }

    /** `status()`, the entry point on the object; what the status holds is stated and
        proved on StatusOf. */
    method Status() returns (s: Status)
      ensures s == StatusOf(Model())
    {
      s := StatusOf(Model());
    }

    /** `get_iterator(rows, columns, error_data)` run to its end. Rows taken from
        `result_data` are the snapshot's own dicts, so `preprocess_export_row` updates the
        snapshot in place. */
    method GetIterator(rows: Option<seq<Row>>, columns: Option<seq<string>>, errorData: bool)
      returns (lines: seq<seq<string>>, raised: Option<string>)
      modifies this
      ensures var out := ExportSpec(hooks.preprocessExportRow, ExportColumns(columns, config.columns, errorData),
                                    ExportRows(rows, errorData, old(resultData), hooks.rowsToExport));
        && lines == out.lines && raised == out.raised
        && Model() == if rows.None? && errorData then old(Model()).(resultData := out.rows) else old(Model())
    {
      var prepare := hooks.preprocessExportRow;
      var cs := ExportColumns(columns, config.columns, errorData);
      var source := ExportRows(rows, errorData, resultData, hooks.rowsToExport);
      var inPlace := rows.None? && errorData;
      ghost var start := Model();
      var current := source;
      lines := [Line(cs, HeaderRow(cs))];
      var i := 0;
      while i < |source|
        invariant i <= FirstRaise(prepare, source)
        invariant lines == LinesOf(prepare, cs, source, i)
        invariant current == PreparedRows(prepare, source, i)
        invariant Model() == if inPlace then start.(resultData := current) else start
      {
        var p := prepare(current[i]);
        if !p.Returns? {
          assert FirstRaise(prepare, source) == i;
          return lines, Some(p.message);
        }
        current := current[i := p.value];
        if inPlace {
          resultData := resultData[i := p.value];
        }
        lines := lines + [Line(cs, p.value)];
        i := i + 1;
      }
      raised := None;
    }

    /** `process_file(thefile, autocommit)` */
    method ProcessFile(file: CsvFile, autocommit: bool) returns (raised: Option<string>)
      modifies this
      ensures (Model(), raised) == ProcessFileSpec(config, hooks, old(Model()), file, autocommit)
    {
      var read := ReadFile(file);
      if read.ReadRaised? {
        return Some(read.message);
      }
      raised := None;
      if read == Reader {
        raised := PreprocessFile(file.rows);
        if raised.None? && autocommit && CanCommit() {
          raised := Commit();
        }
      }
    }
  }
}
