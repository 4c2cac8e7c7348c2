/** The mutable state of a CSVProcessor instance (`__init__`, csv_processor.py) and the
    read-only views of it: `can_commit` and `status()`. */
module States {
  import opened Values
  import opened ErrorLogs

  /** Every instance attribute that the processing operations read or write. */
  datatype State = State(
    filename: string,
    totalRows: nat,
    processedRows: nat,
    savedRows: nat,
    stage: seq<Entry>,
    rollbackRows: seq<Entry>,
    resultData: seq<Row>,
    errorMessages: ErrorLog)

  /** The attributes as `__init__` sets them. */
  const Initial: State := State("", 0, 0, 0, [], [], [], Empty)

  /** Row numbers strictly increase along the queue and each lies in 1..total. */
  ghost predicate Numbered(entries: seq<Entry>, total: nat) {
    && (forall k :: 0 <= k < |entries| ==> 1 <= entries[k].rownum <= total)
    && (forall j, k :: 0 <= j < k < |entries| ==> entries[j].rownum < entries[k].rownum)
  }

  /** `can_commit`: something is staged and no error has been recorded. */
  predicate CanCommit(st: State) {
    st.stage != [] && st.errorMessages.IsEmpty()
  }

  /** A result row counts as an error row when `row.get('error')` is truthy. */
  predicate HasError(r: Row) {
    "error" in r && Truthy(r["error"])
  }

  /** `[row for row in result_data if row.get('error')]` */
  function ErrorRows(rows: seq<Row>): (errs: seq<Row>)
    ensures |errs| <= |rows|
    decreases |rows|
  {
    if rows == [] then []
    else (if HasError(rows[0]) then [rows[0]] else []) + ErrorRows(rows[1..])
  }

  /** The error rows are exactly the rows with an error, each as often as it occurs. */
  lemma {:induction false} ErrorRowsExact(rows: seq<Row>)
    ensures forall r :: multiset(ErrorRows(rows))[r] == if HasError(r) then multiset(rows)[r] else 0
    decreases |rows|
  {
    if rows != [] {
      ErrorRowsExact(rows[1..]);
      assert rows == [rows[0]] + rows[1..];
    }
  }

  /** `status()` without the percentage. */
  datatype Status = Status(
    total: nat,
    processed: nat,
    saved: nat,
    errorRows: seq<Row>,
    errorMessages: seq<string>,
    canCommit: bool)

  function StatusOf(st: State): (s: Status)
    ensures s.total == st.totalRows && s.processed == st.processedRows && s.saved == st.savedRows
    ensures forall r :: r in s.errorRows <==> r in st.resultData && HasError(r)
    ensures forall r :: multiset(s.errorRows)[r] == if HasError(r) then multiset(st.resultData)[r] else 0
    ensures s.errorMessages == st.errorMessages.Keys()
    ensures s.canCommit <==> st.stage != [] && s.errorMessages == []
  {
    ErrorRowsExact(st.resultData);
    Status(st.totalRows, st.processedRows, st.savedRows, ErrorRows(st.resultData),
           st.errorMessages.Keys(), CanCommit(st))
  }
}
