/** `commit` and `rollback`: drain a queue front to back, hand each row to `process_row`,
    and keep going when one raises. */
module Committing {
  import opened Values
  import opened ErrorLogs
  import opened Overrides
  import opened States
  import opened Staging

  /** str(IndexError) for a list index out of range. */
  const IndexErrorText := "list index out of range"

  /** Where a drain loop stands: the local `saved` counter and the processor state. */
  datatype Drain = Drain(saved: nat, state: State, raised: Option<string>)

  /** The attributes a drain loop never touches. */
  predicate SameCounters(a: State, b: State) {
    a.filename == b.filename && a.totalRows == b.totalRows
    && a.processedRows == b.processedRows && a.savedRows == b.savedRows
  }

  /** One iteration of the `while self.stage` loop of `commit`: pop the first entry and
      apply its row. An exception from `process_row` is recorded at the entry's row number
      and, when there is a snapshot, on its result row; an IndexError from that lookup
      escapes the loop. */
  function CommitStep(process: Row -> Raises<Applied>, saved: nat, st: State): (d: Drain)
    requires st.stage != []
    ensures SameCounters(d.state, st)
    ensures d.state.stage == st.stage[1..]
    ensures |d.state.resultData| == |st.resultData|
    ensures d.raised.Some? ==> d.raised.value == IndexErrorText
  {
    var e := st.stage[0];
    var popped := st.(stage := st.stage[1..]);
    match process(e.row)
    case Returns(a) =>
      if !a.didSave then Drain(saved, popped, None)
      else if RowTruthy(a.undo) then
        Drain(saved + 1, popped.(rollbackRows := popped.rollbackRows + [Entry(e.rownum, a.undo.value)]), None)
      else Drain(saved + 1, popped, None)
    case _ =>
      var m := process(e.row).message;
      var logged := popped.(errorMessages := Add(popped.errorMessages, m, e.rownum));
      if logged.resultData == [] then Drain(saved, logged, None)
      else
        match PyIndex(e.rownum - 1, |logged.resultData|)
        case None => Drain(saved, logged, Some(IndexErrorText))
        case Some(j) =>
          Drain(saved, logged.(resultData := logged.resultData[j := MarkFailed(logged.resultData[j], m)]), None)
  }

  /** The `while self.stage` loop of `commit`, from the current state to its end. */
  function CommitLoop(process: Row -> Raises<Applied>, saved: nat, st: State): (d: Drain)
    ensures SameCounters(d.state, st)
    ensures d.raised.None? ==> d.state.stage == []
    ensures d.raised.Some? ==> d.raised.value == IndexErrorText
    ensures saved <= d.saved <= saved + |st.stage|
    ensures |d.state.resultData| == |st.resultData|
    decreases |st.stage|
  {
    if st.stage == [] then Drain(saved, st, None)
    else
      var d := CommitStep(process, saved, st);
      if d.raised.Some? then d else CommitLoop(process, d.saved, d.state)
  }

  /** `commit()`: `saved_rows` is assigned only when the loop ends normally. */
  function CommitSpec(process: Row -> Raises<Applied>, st: State): (r: (State, Option<string>))
  {
    var d := CommitLoop(process, 0, st);
    if d.raised.None? then (d.state.(savedRows := d.saved), None) else (d.state, d.raised)
  }

  /** One iteration of the `while self.rollback_rows` loop of `rollback`. */
  function RollbackStep(process: Row -> Raises<Applied>, saved: nat, st: State): (d: Drain)
    requires st.rollbackRows != []
    ensures d.raised.None?
    ensures var e := st.rollbackRows[0]; var r := process(e.row);
      && d.saved == saved + (if r.Returns? && r.value.didSave then 1 else 0)
      && d.state == st.(rollbackRows := st.rollbackRows[1..],
                        errorMessages := if r.Returns? then st.errorMessages
                                         else Add(st.errorMessages, r.message, e.rownum))
  {
    var e := st.rollbackRows[0];
    var popped := st.(rollbackRows := st.rollbackRows[1..]);
    match process(e.row)
    case Returns(a) => Drain(if a.didSave then saved + 1 else saved, popped, None)
    case _ =>
      Drain(saved, popped.(errorMessages := Add(popped.errorMessages, process(e.row).message, e.rownum)), None)
  }

  /** The `while self.rollback_rows` loop of `rollback`. */
  function RollbackLoop(process: Row -> Raises<Applied>, saved: nat, st: State): (d: Drain)
    ensures d.raised.None?
    ensures d.state == st.(rollbackRows := [], errorMessages := d.state.errorMessages)
    decreases |st.rollbackRows|
  {
    if st.rollbackRows == [] then Drain(saved, st, None)
    else
      var d := RollbackStep(process, saved, st);
      RollbackLoop(process, d.saved, d.state)
  }

  /** `rollback()`: `saved_rows` is replaced by the count of this pass. */
  function RollbackSpec(process: Row -> Raises<Applied>, st: State): (r: State)
  {
    var d := RollbackLoop(process, 0, st);
    d.state.(savedRows := d.saved)
  }

  // ---- reference definitions, entry by entry ----

  /** Number of entries whose `process_row` reports `did_save`. */
  function SavedCount(process: Row -> Raises<Applied>, entries: seq<Entry>): nat
    decreases |entries|
  {
    if entries == [] then 0
    else
      var r := process(entries[0].row);
      (if r.Returns? && r.value.didSave then 1 else 0) + SavedCount(process, entries[1..])
  }

  /** The `(rownum, undo)` pairs of the saved entries whose undo row is truthy, in order. */
  function UndoLog(process: Row -> Raises<Applied>, entries: seq<Entry>): seq<Entry>
    decreases |entries|
  {
    if entries == [] then []
    else
      var r := process(entries[0].row);
      (if r.Returns? && r.value.didSave && RowTruthy(r.value.undo)
       then [Entry(entries[0].rownum, r.value.undo.value)] else [])
      + UndoLog(process, entries[1..])
  }

  /** The `(str(e), rownum)` pairs of the entries whose `process_row` raises, in order. */
  function Failures(process: Row -> Raises<Applied>, entries: seq<Entry>): seq<Report>
    decreases |entries|
  {
    if entries == [] then []
    else
      var r := process(entries[0].row);
      (if !r.Returns? then [Report(r.message, entries[0].rownum)] else [])
      + Failures(process, entries[1..])
  }

  lemma {:induction false} UndoLogAppend(process: Row -> Raises<Applied>, xs: seq<Entry>, ys: seq<Entry>)
    ensures UndoLog(process, xs + ys) == UndoLog(process, xs) + UndoLog(process, ys)
    decreases |xs|
  {
    if xs == [] {
      assert xs + ys == ys;
    } else {
      assert (xs + ys)[0] == xs[0];
      assert (xs + ys)[1..] == xs[1..] + ys;
      UndoLogAppend(process, xs[1..], ys);
    }
  }

  lemma {:induction false} FailuresAppend(process: Row -> Raises<Applied>, xs: seq<Entry>, ys: seq<Entry>)
    ensures Failures(process, xs + ys) == Failures(process, xs) + Failures(process, ys)
    decreases |xs|
  {
    if xs == [] {
      assert xs + ys == ys;
    } else {
      assert (xs + ys)[0] == xs[0];
      assert (xs + ys)[1..] == xs[1..] + ys;
      FailuresAppend(process, xs[1..], ys);
    }
  }

  /** Every row number indexes the snapshot (or there is no snapshot). */
  ghost predicate Indexable(entries: seq<Entry>, results: seq<Row>) {
    results == [] || forall k :: 0 <= k < |entries| ==> 1 <= entries[k].rownum <= |results|
  }

  // ---- commit ----

  /** If every staged row number indexes the snapshot, commit does not raise. */
  lemma {:induction false} CommitLoopCompletes(process: Row -> Raises<Applied>, saved: nat, st: State)
    requires Indexable(st.stage, st.resultData)
    ensures CommitLoop(process, saved, st).raised.None?
    decreases |st.stage|
  {
    if st.stage != [] {
      var d := CommitStep(process, saved, st);
      assert Indexable(d.state.stage, d.state.resultData) by {
        assert forall k :: 0 <= k < |d.state.stage| ==> d.state.stage[k] == st.stage[k + 1];
      }
      CommitLoopCompletes(process, d.saved, d.state);
    }
  }

  /** What one commit step does to the undo queue and the error map. */
  lemma CommitStepEffects(process: Row -> Raises<Applied>, saved: nat, st: State)
    requires st.stage != []
    ensures var d := CommitStep(process, saved, st); var e := st.stage[0]; var r := process(e.row);
      && d.state.rollbackRows == st.rollbackRows + UndoLog(process, [e])
      && d.state.errorMessages == AddAll(st.errorMessages, Failures(process, [e]))
  {
    var e := st.stage[0];
    var r := process(e.row);
    assert [e][1..] == [];
    if !r.Returns? {
      AddAllCons(st.errorMessages, Report(r.message, e.rownum), []);
      assert [Report(r.message, e.rownum)] + [] == [Report(r.message, e.rownum)];
    }
  }

  /** When the loop finishes, the local count is that of the entry-by-entry definition. */
  lemma {:induction false} CommitLoopSaved(process: Row -> Raises<Applied>, saved: nat, st: State)
    requires CommitLoop(process, saved, st).raised.None?
    ensures CommitLoop(process, saved, st).saved == saved + SavedCount(process, st.stage)
    decreases |st.stage|
  {
    if st.stage != [] {
      var d := CommitStep(process, saved, st);
      CommitLoopSaved(process, d.saved, d.state);
    }
  }

  /** When the loop finishes, the undo queue has gained exactly the undo rows of the saved
      entries, in stage order. */
  lemma {:induction false} CommitLoopUndo(process: Row -> Raises<Applied>, saved: nat, st: State)
    requires CommitLoop(process, saved, st).raised.None?
    ensures CommitLoop(process, saved, st).state.rollbackRows == st.rollbackRows + UndoLog(process, st.stage)
    decreases |st.stage|
  {
    if st.stage != [] {
      var e := st.stage[0];
      var d := CommitStep(process, saved, st);
      CommitLoopUndo(process, d.saved, d.state);
      CommitStepEffects(process, saved, st);
      UndoLogAppend(process, [e], st.stage[1..]);
      assert [e] + st.stage[1..] == st.stage;
    }
  }

  /** When the loop finishes, every raising entry has been recorded, in stage order. */
  lemma {:induction false} CommitLoopErrors(process: Row -> Raises<Applied>, saved: nat, st: State)
    requires CommitLoop(process, saved, st).raised.None?
    ensures CommitLoop(process, saved, st).state.errorMessages == AddAll(st.errorMessages, Failures(process, st.stage))
    decreases |st.stage|
  {
    if st.stage != [] {
      var e := st.stage[0];
      var d := CommitStep(process, saved, st);
      CommitLoopErrors(process, d.saved, d.state);
      CommitStepEffects(process, saved, st);
      FailuresAppend(process, [e], st.stage[1..]);
      assert [e] + st.stage[1..] == st.stage;
      AddAllAppend(st.errorMessages, Failures(process, [e]), Failures(process, st.stage[1..]));
    }
  }

  /** The result row a commit leaves at index j: marked with the error of the entry
      numbered j + 1 if that entry raised, otherwise as it was. */
  function MarkedAt(process: Row -> Raises<Applied>, entries: seq<Entry>, j: nat, result: Row): Row
    decreases |entries|
  {
    if entries == [] then result
    else
      var r := process(entries[0].row);
      var here := if !r.Returns? && entries[0].rownum == j + 1 then MarkFailed(result, r.message) else result;
      MarkedAt(process, entries[1..], j, here)
  }

  /** A commit marks the raising rows' results and leaves every other result row alone. */
  lemma {:induction false} CommitLoopResults(process: Row -> Raises<Applied>, saved: nat, st: State)
    requires st.resultData != []
    requires Numbered(st.stage, |st.resultData|)
    ensures var d := CommitLoop(process, saved, st);
      forall j :: 0 <= j < |st.resultData| ==>
        d.state.resultData[j] == MarkedAt(process, st.stage, j, st.resultData[j])
    decreases |st.stage|
  {
    if st.stage != [] {
      var d := CommitStep(process, saved, st);
      assert Numbered(d.state.stage, |d.state.resultData|) by {
        assert forall k :: 0 <= k < |d.state.stage| ==> d.state.stage[k] == st.stage[k + 1];
      }
      CommitLoopResults(process, d.saved, d.state);
    }
  }

  /** Partial-failure containment: after a commit from a stage whose row numbers index the
      snapshot, the saved count is that of the saved entries, every raising entry's error
      is recorded against its row number, and the undo queue gains exactly the undo rows of
      the saved entries, in stage order. */
  lemma CommitAccounting(process: Row -> Raises<Applied>, st: State)
    requires Indexable(st.stage, st.resultData)
    ensures var (s, raised) := CommitSpec(process, st);
      && raised.None?
      && s.stage == []
      && s.totalRows == st.totalRows && s.processedRows == st.processedRows
      && s.savedRows == SavedCount(process, st.stage)
      && s.rollbackRows == st.rollbackRows + UndoLog(process, st.stage)
      && s.errorMessages == AddAll(st.errorMessages, Failures(process, st.stage))
  {
    CommitLoopCompletes(process, 0, st);
    CommitLoopSaved(process, 0, st);
    CommitLoopUndo(process, 0, st);
    CommitLoopErrors(process, 0, st);
  }

  // ---- rollback ----

  lemma {:induction false} RollbackLoopSummary(process: Row -> Raises<Applied>, saved: nat, st: State)
    ensures var d := RollbackLoop(process, saved, st);
      && d.saved == saved + SavedCount(process, st.rollbackRows)
      && d.state.errorMessages == AddAll(st.errorMessages, Failures(process, st.rollbackRows))
    decreases |st.rollbackRows|
  {
    if st.rollbackRows != [] {
      var e := st.rollbackRows[0];
      var rest := st.rollbackRows[1..];
      var d := RollbackStep(process, saved, st);
      RollbackLoopSummary(process, d.saved, d.state);
      var r := process(e.row);
      if r.Returns? {
        assert Failures(process, st.rollbackRows) == Failures(process, rest);
      } else {
        assert Failures(process, st.rollbackRows) == [Report(r.message, e.rownum)] + Failures(process, rest);
        AddAllCons(st.errorMessages, Report(r.message, e.rownum), Failures(process, rest));
      }
    }
  }

  /** Rollback empties its queue, replaces `saved_rows` by the number of undo rows that
      reported `did_save` (not adding it to the commit's count), records each raising undo
      row's error and changes nothing else. */
  lemma RollbackAccounting(process: Row -> Raises<Applied>, st: State)
    ensures var s := RollbackSpec(process, st);
      && s.rollbackRows == []
      && s.savedRows == SavedCount(process, st.rollbackRows)
      && s.errorMessages == AddAll(st.errorMessages, Failures(process, st.rollbackRows))
      && s.(savedRows := st.savedRows, errorMessages := st.errorMessages) == st.(rollbackRows := [])
  {
    RollbackLoopSummary(process, 0, st);
  }
}
