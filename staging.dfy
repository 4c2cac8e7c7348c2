/** The validate -> preprocess -> stage-or-reject pass of `preprocess_file`, as functions
    of the input rows. */
module Staging {
  import opened Values
  import opened ErrorLogs
  import opened Overrides
  import opened States

  const SuccessText := "Success"
  const FailureText := "Failure"
  const NoActionText := "No Action"

  /** What the try block of one row ends in. */
  datatype Verdict =
    | Staged(row: Row)         // valid, preprocessed to a truthy row
    | NoAction                 // valid, preprocessed to a falsy value
    | Failed(message: string)  // ValidationError from validate_row or preprocess_row
    | Fatal(message: string)   // any other exception: escapes preprocess_file

  function Judge(o: Overrides, row: Row): (v: Verdict)
    ensures v.Staged? <==> o.validateRow(row).Returns? && o.preprocessRow(row).Returns? && RowTruthy(o.preprocessRow(row).value)
    ensures v.Failed? <==> o.validateRow(row).RaisesValidation? || (o.validateRow(row).Returns? && o.preprocessRow(row).RaisesValidation?)
    ensures v.Fatal? <==> o.validateRow(row).RaisesOther? || (o.validateRow(row).Returns? && o.preprocessRow(row).RaisesOther?)
    ensures v.Staged? ==> v.row == o.preprocessRow(row).value.value
    ensures v.Failed? || v.Fatal? ==>
      v.message == if !o.validateRow(row).Returns? then o.validateRow(row).message else o.preprocessRow(row).message
  {
    match o.validateRow(row)
    case RaisesValidation(m) => Failed(m)
    case RaisesOther(m) => Fatal(m)
    case Returns(_) =>
      match o.preprocessRow(row)
      case RaisesValidation(m) => Failed(m)
      case RaisesOther(m) => Fatal(m)
      case Returns(p) => if RowTruthy(p) then Staged(p.value) else NoAction
  }

  /** `ResultDict(row)`: a copy of the row; `error` and `status` are added only when the
      row has no `error` key of its own. */
  function NewResult(row: Row): (r: Row)
    ensures "error" !in row ==> r == row["error" := VStr("")]["status" := VStr(SuccessText)]
    ensures "error" in row ==> r == row
  {
    if "error" in row then row else row["error" := VStr("")]["status" := VStr(SuccessText)]
  }

  /** `result['error'] = str(e); result['status'] = 'Failure'` */
  function MarkFailed(result: Row, message: string): (r: Row)
    ensures "error" in r && "status" in r
    ensures r["error"] == VStr(message) && r["status"] == VStr(FailureText)
    ensures r.Keys == result.Keys + {"error", "status"}
    ensures forall k :: k in result && k != "error" && k != "status" ==> r[k] == result[k]
  {
    result["error" := VStr(message)]["status" := VStr(FailureText)]
  }

  /** The result row recorded for an input row (for a Fatal verdict, the ResultDict made
      before the hooks ran, which is never appended). */
  function ResultFor(row: Row, v: Verdict): (r: Row)
    ensures forall k :: k in row && k != "error" && k != "status" ==> k in r && r[k] == row[k]
    ensures "error" in r && (v.Failed? || v.NoAction? || "error" !in row ==> "status" in r)
    ensures v.Failed? ==> r["status"] == VStr(FailureText) && r["error"] == VStr(v.message)
    ensures "error" !in row && v.NoAction? ==> r["status"] == VStr(NoActionText) && r["error"] == VStr("")
    ensures "error" !in row && v.Staged? ==> r["status"] == VStr(SuccessText) && r["error"] == VStr("")
    ensures "error" in row && !v.Failed? ==> r["error"] == row["error"]
  {
    var result := NewResult(row);
    match v
    case Staged(_) => result
    case Fatal(_) => result
    case NoAction => result["status" := VStr(NoActionText)]
    case Failed(m) => MarkFailed(result, m)
  }

  /** Index of the first row whose hooks raise something other than a ValidationError,
      or the number of rows when there is none. */
  function FatalAt(o: Overrides, rows: seq<Row>): (k: nat)
    ensures k <= |rows|
    ensures forall i :: 0 <= i < k ==> !Judge(o, rows[i]).Fatal?
    ensures k < |rows| ==> Judge(o, rows[k]).Fatal?
    decreases |rows|
  {
    if rows == [] || Judge(o, rows[0]).Fatal? then 0 else 1 + FatalAt(o, rows[1..])
  }

  /** The entries `(rownum, row)` the pass appends to `stage` for the first `n` rows;
      row numbers are 1-based. */
  function StageOf(o: Overrides, rows: seq<Row>, n: nat): seq<Entry>
    requires n <= |rows|
    decreases n
  {
    if n == 0 then []
    else
      var earlier := StageOf(o, rows, n - 1);
      match Judge(o, rows[n - 1])
      case Staged(r) => earlier + [Entry(n, r)]
      case _ => earlier
  }

  /** The `add_error(str(e), rownum)` calls of the pass over the first `n` rows, in order. */
  function ReportsOf(o: Overrides, rows: seq<Row>, n: nat): seq<Report>
    requires n <= |rows|
    decreases n
  {
    if n == 0 then []
    else
      var earlier := ReportsOf(o, rows, n - 1);
      var v := Judge(o, rows[n - 1]);
      if v.Failed? then earlier + [Report(v.message, n)] else earlier
  }

  /** The snapshot of result rows for the first `n` rows, one per row. */
  function ResultsOf(o: Overrides, rows: seq<Row>, n: nat): seq<Row>
    requires n <= |rows|
  {
    seq(n, i requires 0 <= i < n => ResultFor(rows[i], Judge(o, rows[i])))
  }

  /** What handling one row with verdict `v` does to the state: a Staged row joins
      `stage`, a rejected row's message is recorded; nothing else changes. */
  function RowStep(st: State, rownum: nat, v: Verdict): State {
    st.(stage := if v.Staged? then st.stage + [Entry(rownum, v.row)] else st.stage,
        errorMessages := if v.Failed? then Add(st.errorMessages, v.message, rownum) else st.errorMessages)
  }

  /** The state after the first `n` rows have been handled. */
  function Passed(o: Overrides, st: State, rows: seq<Row>, n: nat): State
    requires n <= |rows|
  {
    st.(stage := st.stage + StageOf(o, rows, n),
        errorMessages := AddAll(st.errorMessages, ReportsOf(o, rows, n)))
  }

  /** `preprocess_file` on the state `st`: staging and error reporting happen row by row;
      the snapshot and the counters are assigned only when every row was handled. */
  function PreprocessSpec(o: Overrides, st: State, rows: seq<Row>): (r: (State, Option<string>))
  {
    var k := FatalAt(o, rows);
    var partial := Passed(o, st, rows, k);
    if k < |rows| then (partial, Some(Judge(o, rows[k]).message))
    else (partial.(resultData := ResultsOf(o, rows, k), totalRows := k,
                   processedRows := |StageOf(o, rows, k)|), None)
  }

  /** A row that is not fatal lets the pass go on past it. */
  lemma PastRow(o: Overrides, rows: seq<Row>, i: nat)
    requires i < |rows| && i <= FatalAt(o, rows) && !Judge(o, rows[i]).Fatal?
    ensures i + 1 <= FatalAt(o, rows)
  {
  }

  /** Handling one more row is one RowStep, and adds that row's result to the snapshot. */
  lemma PassStep(o: Overrides, st: State, rows: seq<Row>, i: nat)
    requires i < |rows|
    ensures Passed(o, st, rows, i + 1) == RowStep(Passed(o, st, rows, i), i + 1, Judge(o, rows[i]))
    ensures ResultsOf(o, rows, i + 1) == ResultsOf(o, rows, i) + [ResultFor(rows[i], Judge(o, rows[i]))]
    ensures |StageOf(o, rows, i + 1)| == |StageOf(o, rows, i)| + if Judge(o, rows[i]).Staged? then 1 else 0
  {
    StageStep(o, st.stage, rows, i);
    ReportsStep(o, st.errorMessages, rows, i);
    ResultsStep(o, rows, i);
  }

  /** The snapshot after one more row. */
  lemma ResultsStep(o: Overrides, rows: seq<Row>, i: nat)
    requires i < |rows|
    ensures ResultsOf(o, rows, i + 1) == ResultsOf(o, rows, i) + [ResultFor(rows[i], Judge(o, rows[i]))]
  {
    var prev := ResultsOf(o, rows, i);
    var last := ResultFor(rows[i], Judge(o, rows[i]));
    forall k | 0 <= k < i + 1
      ensures ResultsOf(o, rows, i + 1)[k] == (prev + [last])[k]
    {
    }
  }

  /** The stage after one more row. */
  lemma StageStep(o: Overrides, stage: seq<Entry>, rows: seq<Row>, i: nat)
    requires i < |rows|
    ensures var v := Judge(o, rows[i]);
      stage + StageOf(o, rows, i + 1) ==
        if v.Staged? then (stage + StageOf(o, rows, i)) + [Entry(i + 1, v.row)] else stage + StageOf(o, rows, i)
  {
    var v := Judge(o, rows[i]);
    if v.Staged? {
      assert StageOf(o, rows, i + 1) == StageOf(o, rows, i) + [Entry(i + 1, v.row)];
    }
  }

  /** The error log after one more row. */
  lemma ReportsStep(o: Overrides, log: ErrorLog, rows: seq<Row>, i: nat)
    requires i < |rows|
    ensures var v := Judge(o, rows[i]);
      AddAll(log, ReportsOf(o, rows, i + 1)) ==
        if v.Failed? then Add(AddAll(log, ReportsOf(o, rows, i)), v.message, i + 1) else AddAll(log, ReportsOf(o, rows, i))
  {
    var v := Judge(o, rows[i]);
    if v.Failed? {
      AddAllSnoc(log, ReportsOf(o, rows, i), Report(v.message, i + 1));
    }
  }

  // ---- what the pass computes ----

  /** The stage entries are numbered 1..n in strictly increasing order. */
  lemma {:induction false} StageOfNumbered(o: Overrides, rows: seq<Row>, n: nat)
    requires n <= |rows|
    ensures Numbered(StageOf(o, rows, n), n)
    decreases n
  {
    if n > 0 {
      StageOfNumbered(o, rows, n - 1);
    }
  }

  /** A row is staged, with its preprocessed value, exactly when its verdict is Staged. */
  lemma {:induction false} StageOfExact(o: Overrides, rows: seq<Row>, n: nat)
    requires n <= |rows|
    ensures forall e :: e in StageOf(o, rows, n) ==>
      1 <= e.rownum <= n && Judge(o, rows[e.rownum - 1]) == Staged(e.row)
    ensures forall i :: 0 <= i < n && Judge(o, rows[i]).Staged? ==>
      Entry(i + 1, Judge(o, rows[i]).row) in StageOf(o, rows, n)
    decreases n
  {
    if n > 0 {
      StageOfExact(o, rows, n - 1);
    }
  }

  /** The errors reported are exactly the rejected rows, paired with their row numbers. */
  lemma {:induction false} ReportsOfExact(o: Overrides, rows: seq<Row>, n: nat)
    requires n <= |rows|
    ensures forall p :: p in ReportsOf(o, rows, n) ==>
      1 <= p.row <= n && Judge(o, rows[p.row - 1]) == Failed(p.message)
    ensures forall i :: 0 <= i < n && Judge(o, rows[i]).Failed? ==>
      Report(Judge(o, rows[i]).message, i + 1) in ReportsOf(o, rows, n)
    decreases n
  {
    if n > 0 {
      ReportsOfExact(o, rows, n - 1);
    }
  }

  /** After a complete pass: the counters, the snapshot and the stage agree with the file. */
  lemma PreprocessAccounting(o: Overrides, st: State, rows: seq<Row>)
    requires forall i :: 0 <= i < |rows| ==> !Judge(o, rows[i]).Fatal?
    ensures PreprocessSpec(o, st, rows).1 == None
    ensures var s := PreprocessSpec(o, st, rows).0;
      && s.totalRows == |rows|
      && |s.resultData| == s.totalRows
      && s.stage == st.stage + StageOf(o, rows, |rows|)
      && s.processedRows == |s.stage| - |st.stage|
      && s.errorMessages == AddAll(st.errorMessages, ReportsOf(o, rows, |rows|))
      && (forall i :: 0 <= i < |rows| ==> s.resultData[i] == ResultFor(rows[i], Judge(o, rows[i])))
  {
    assert FatalAt(o, rows) == |rows|;
  }

  /** The invariant that makes `result_data[rownum - 1]` in `commit` well-defined: a pass
      that starts from an empty stage leaves a stage numbered within the snapshot. */
  lemma FreshPassNumbered(o: Overrides, st: State, rows: seq<Row>)
    requires st.stage == []
    requires forall i :: 0 <= i < |rows| ==> !Judge(o, rows[i]).Fatal?
    ensures var s := PreprocessSpec(o, st, rows).0;
      Numbered(s.stage, |s.resultData|) && |s.resultData| == s.totalRows
  {
    PreprocessAccounting(o, st, rows);
    StageOfNumbered(o, rows, |rows|);
    assert [] + StageOf(o, rows, |rows|) == StageOf(o, rows, |rows|);
  }

  /** The pass records at least one error exactly when some row was rejected (or errors
      were already recorded). */
  lemma PreprocessErrors(o: Overrides, st: State, rows: seq<Row>)
    requires forall i :: 0 <= i < |rows| ==> !Judge(o, rows[i]).Fatal?
    ensures PreprocessSpec(o, st, rows).0.errorMessages.IsEmpty() <==>
      st.errorMessages.IsEmpty() && forall i :: 0 <= i < |rows| ==> !Judge(o, rows[i]).Failed?
  {
    assert FatalAt(o, rows) == |rows|;
    var reports := ReportsOf(o, rows, |rows|);
    AddAllKeys(st.errorMessages, reports);
    ReportsOfExact(o, rows, |rows|);
  }
}
