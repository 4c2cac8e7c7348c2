# super-csv processing core, modelled in Dafny

super-csv is a class-based CSV importer. A `CSVProcessor` subclass reads an uploaded file in three steps:

- It checks the file: a size limit and the required columns.
- It makes a validation and preprocessing pass that stages the good rows and records a result row for every row.
- It commits the staged rows through the subclass's `process_row`, keeping undo rows so that the commit can be rolled back.

Two mixins build on this:

- `ChecksumMixin` writes a keyed checksum into every exported row and rejects a row whose protected columns were edited.
- `DeferrableMixin` saves the processor's state as `CSVOperation` records. It hands a commit that is too large to a background task, which loads the saved state into a new processor and commits there.

The project models these pieces:

- **`values.dfy`: cell values and rows.** Rows are maps from column name to a value: None, bool, int or str.
- **`error_logs.dfy`: the `error_messages` defaultdict.** It is a map from message to row numbers whose keys keep their first-insertion order.
- **`overrides.dfy`: the methods a subclass overrides.** These are `validate_row`, `preprocess_row`, `process_row`, `preprocess_export_row` and `get_rows_to_export`. Each is an explicit function value whose outcome is a return value, a ValidationError or any other exception.
- **`state.dfy`: the processor's attributes.** Also `can_commit` and `status()`.
- **`files.dfy`: `validate_file` and `read_file`.**
- **`staging.dfy`: the `preprocess_file` pass.** It is defined as functions of the input rows.
- **`commit.dfy`: the `commit` and `rollback` drain loops.** Each comes with entry-by-entry reference definitions: the saved count, the undo log and the failures.
- **`export.dfy`: `get_iterator`.** It covers the column and row choice, the header, and the `DictWriter` projection with `extrasaction="ignore"`.
- **`processor.dfy`: the `CSVProcessor` object.** It is a class whose fields are the instance attributes. Its methods (`AddError`, `ReadFile`, `PreprocessRow`, `PreprocessFile`, `Commit`, `Rollback`, `Status`, `GetIterator`, `ProcessFile`) run the same loops in place, and each is proved equal to the functions above.
- **`checksum.dfy`: `ChecksumMixin`.** The md5 digest is a parameter that returns 32 hexadecimal digits.
- **`snapshots.dfy`: what `save` keeps of a processor.** This is the state filter loop. It also holds the default operation name and the class check of `load`.
- **`deferrable.dfy`: `DeferrableMixin` and `do_deferred_commit`.** The `CSVOperation` table is the `OperationStore` class, whose records have primary keys `1..n`. A `DeferrableProcessor` holds a `CsvProcessor`, its other attributes and the store. Its `Save`, `Status`, `PreprocessFile`, `Commit` and `ProcessFile` are proved against predicates on the old and new state. `DoDeferredCommit` is proved against `TaskSpec`. These are external inputs passed as parameters:
  - `result.ready()` and the task id;
  - the classes `importlib` can find;
  - the request's user (the store's `requestUser`).
- **`scenarios.dfy`: the repository's test fixtures and test runs**, stated as lemmas about the model.

Two behaviours of the code are easy to misread, and the model follows the code in both:

- **Default operation name.** `save` with no name (`super_csv/mixins.py:114-115`) records `'stage'` when `can_commit` holds and `'commit'` otherwise.
- **Exceptions that propagate.** Not every data error stays inside `process_file`. An exception other than ValidationError from `validate_row` or `preprocess_row` escapes the pass, and that escape is modelled: `Staging.FatalAt`, `PreprocessSpec`. So do these:
  - the IndexError of `result_data[rownum - 1]` inside `commit`'s `except` block;
  - the TypeError of a file without a header line when required columns are set.

## Model

| member | source | states |
|---|---|---|
| Values.PyIndex | super_csv/csv_processor.py:300-301 | Python list indexing: negative indexes count from the end, and exactly the indexes -len..len-1 are valid |
| Values.FirstNotIn | super_csv/csv_processor.py:244-246 | the first name not present (the first missing required column; in mixins.py:41 the first checksum column the row lacks): every name before it is present |
| Values.CellText | super_csv/mixins.py:41 | a string is its own text, None gives the empty string, an int gives its decimal rendering |
| ErrorLogs.Add | super_csv/csv_processor.py:140-144 | `add_error`: the row is appended to the message's list (repeats allowed); a new message becomes the last key; no other key or list changes |
| ErrorLogs.AddKeepsDistinct | super_csv/csv_processor.py:136-144 | message keys stay distinct under `add_error` |
| ErrorLogs.AddAllKeys | super_csv/csv_processor.py:136-144 | after a run of `add_error` calls, a message is a key iff it was one or was reported; old keys keep their order; the map is empty iff it was and nothing was reported |
| ErrorLogs.AddAllAppend | super_csv/csv_processor.py:140-144 | recording two runs of errors is recording them one after the other |
| States.StatusOf | super_csv/csv_processor.py:321-334 | `status()`: the counters; `error_rows` holds exactly the result rows with a truthy `error`, with their multiplicities; `error_messages` is the keys of the error map; `can_commit` iff stage non-empty and no message |
| States.ErrorRowsExact | super_csv/csv_processor.py:329 | the error-row comprehension keeps every row with an error, as often as it occurs, and no other row |
| Files.ValidateFile | super_csv/csv_processor.py:236-246 | the file passes iff it is not too large (a size is given, the limit is not 0 and the size exceeds it) and every required column is in the header; size error first, then the first missing column's message; TypeError for a missing header |
| Files.RejectedFile | super_csv/csv_processor.py:194-207 | a rejected file records exactly one error, its check's message, at row 0; nothing is staged and `total_rows` stays 0 |
| Files.AcceptedFile | super_csv/csv_processor.py:194-205 | an accepted file changes only `filename` and yields a reader |
| Staging.Judge | super_csv/csv_processor.py:219-230 | a row is staged iff it validates and preprocesses to a truthy row; it fails iff `validate_row` raises ValidationError or it validates and `preprocess_row` does; it is fatal iff either of them raises another exception in that order; a failure or fatal verdict carries the message of the hook that raised |
| Staging.NewResult | super_csv/csv_processor.py:77-83 | `ResultDict` adds `error=''` and `status='Success'` only to a row without an `error` key |
| Staging.MarkFailed | super_csv/csv_processor.py:229-230 | the result gets `error=str(e)` and `status='Failure'`, other keys unchanged |
| Staging.ResultFor | super_csv/csv_processor.py:218-231 | each row's result: Failure and the message for a rejected row, No Action with empty error for a falsy preprocessed row, Success with empty error otherwise; the row's own cells are kept |
| Staging.FatalAt | super_csv/csv_processor.py:217-221 | the first row whose hooks raise a non-ValidationError exception: every earlier row is handled |
| Staging.PassStep | super_csv/csv_processor.py:217-231 | one more row of the pass is one stage-or-report step and one more result row |
| Staging.StageOfNumbered | super_csv/csv_processor.py:217-224 | staged row numbers strictly increase and lie in 1..n |
| Staging.StageOfExact | super_csv/csv_processor.py:217-224 | an entry `(n, r)` is staged iff row n's verdict is Staged with preprocessed value r |
| Staging.ReportsOfExact | super_csv/csv_processor.py:227-228 | an error `(m, n)` is reported iff row n was rejected with message m |
| Staging.PreprocessAccounting | super_csv/csv_processor.py:209-234 | after a complete pass: `total_rows` is the number of rows, `result_data` has one result per row, `processed_rows` the number of rows staged, the errors are those reported |
| Staging.FreshPassNumbered | super_csv/csv_processor.py:209-234 | from an empty stage the pass leaves row numbers within 1..`len(result_data)`, so `result_data[rownum - 1]` in `commit` is in range |
| Staging.PreprocessErrors | super_csv/csv_processor.py:227-228 | the pass leaves errors iff there were some or some row was rejected |
| Committing.CommitStep | super_csv/csv_processor.py:288-301 | one iteration pops the first entry; only the IndexError of the result lookup escapes; counters and snapshot length are kept |
| Committing.CommitLoop | super_csv/csv_processor.py:287-302 | the loop leaves the stage empty unless it raised, and the count grows by at most the stage length |
| Committing.RollbackStep | super_csv/csv_processor.py:310-318 | one undo row: the count grows iff `did_save`, an exception is recorded at its row number, nothing else changes |
| Committing.RollbackLoop | super_csv/csv_processor.py:309-319 | the loop never raises, empties `rollback_rows` and changes only the error map besides |
| Committing.CommitLoopCompletes | super_csv/csv_processor.py:296-301 | when every row number indexes the snapshot (or there is none), commit does not raise |
| Committing.CommitLoopSaved | super_csv/csv_processor.py:287-302 | the count is the number of staged entries that reported `did_save` |
| Committing.CommitLoopUndo | super_csv/csv_processor.py:292-295 | the undo queue gains exactly the truthy undo rows of the saved entries, in stage order |
| Committing.CommitLoopErrors | super_csv/csv_processor.py:296-298 | every raising entry's message is recorded at its row number, in stage order |
| Committing.CommitLoopResults | super_csv/csv_processor.py:299-301 | result rows of raising entries are marked Failure with the message; every other result row is untouched |
| Committing.CommitAccounting | super_csv/csv_processor.py:283-303 | partial-failure containment: commit completes, empties the stage, `saved_rows` is the saved count, the undo log and the failures are appended in order, counters are kept |
| Committing.RollbackLoopSummary | super_csv/csv_processor.py:305-319 | the rollback count is the number of undo rows that saved; their failures are recorded in order |
| Committing.RollbackAccounting | super_csv/csv_processor.py:305-319 | rollback empties its queue, replaces (does not add to) `saved_rows`, records failures, changes nothing else |
| Exporting.Line | super_csv/csv_processor.py:173-178 | a written line has one cell per column: the cell's text, or empty for a missing column |
| Exporting.HeaderRow | super_csv/csv_processor.py:174 | the header row maps each column to its own name |
| Exporting.HeaderLine | super_csv/csv_processor.py:173-175 | the header line names the columns, in order |
| Exporting.LineIgnoresExtras | super_csv/csv_processor.py:173 | a line sees only the row's cells under the output columns |
| Exporting.LineOfRestriction | super_csv/csv_processor.py:173 | a row and the same row cut down to the columns give the same line |
| Exporting.FirstRaise | super_csv/csv_processor.py:176-178 | the first row whose `preprocess_export_row` raises; every earlier row was prepared |
| Exporting.PreparedRows | super_csv/csv_processor.py:176-177 | the rows before the raise are as `preprocess_export_row` left them, the rest untouched |
| Exporting.LinesOfShape | super_csv/csv_processor.py:174-178 | the header first, then each row's line, in order |
| Exporting.ExportShape | super_csv/csv_processor.py:153-178 | export completes iff no row's hook raises; the header comes first, then one line per prepared row, each one cell per column |
| Exporting.PlainExport | super_csv/csv_processor.py:257-261 | with the base `preprocess_export_row` the export is the rows' lines after the header |
| Checksums.Prefix | super_csv/mixins.py:43 | `s[:n]` has length min(n, len s) and is a prefix |
| Checksums.GetChecksum | super_csv/mixins.py:40-43 | the checksum exists iff every checksum column is present, otherwise a KeyError names the first missing column in `checksum_columns` order (every earlier one is present) |
| Checksums.ChecksumShape | super_csv/mixins.py:43 | `@` then the first `checksum_size` hex digits of the digest of the joined texts and the secret; length 1 + min(size, 32) |
| Checksums.JoinedByText | super_csv/mixins.py:41 | the joined text depends only on each column's text |
| Checksums.ChecksumByText | super_csv/mixins.py:41 | representation independence: rows with the same column texts (None and '', 0 and '0') have the same checksum |
| Checksums.ValidateRow | super_csv/mixins.py:51-60 | ValidationError with the mismatch message iff the recomputed checksum differs from the stored field; accepted iff equal; KeyError if the field is absent; a checksum column's KeyError from the recomputation escapes unchanged |
| Checksums.ExportRow | super_csv/mixins.py:45-49 | the row gains its checksum under the checksum field; no other key changes |
| Checksums.WithChecksum | super_csv/mixins.py:30-60 | the mixin replaces `validate_row` and `preprocess_export_row` and keeps the other methods |
| Checksums.ExportThenValidate | super_csv/mixins.py:45-60 | a row prepared for export validates |
| Checksums.ReadLine | super_csv/csv_processor.py:203 | the row DictReader makes has exactly the header's columns |
| Checksums.ReadWrittenLine | super_csv/csv_processor.py:173-178 | reading back a written line gives each column the text written from the row |
| Checksums.WrittenRowValidates | super_csv/mixins.py:45-60 | round trip through a file: an exported row, written and read back as text, validates |
| Snapshots.Lookup | super_csv/mixins.py:156-157 | `getattr` finds a value iff the name is an attribute |
| Snapshots.SetAttr | super_csv/mixins.py:195-198 | `setattr` changes the value under that name and no other |
| Snapshots.Public | super_csv/mixins.py:104-108 | the kept attributes are exactly those whose name does not start with `_` |
| Snapshots.ListOfSet | super_csv/mixins.py:110 | `list(v)` holds each member of the set exactly once |
| Snapshots.FilterState | super_csv/mixins.py:104-111 | the saved state is the public attributes in order, sets replaced by lists of their members, everything else kept |
| Snapshots.FilteredClean | super_csv/mixins.py:104-111 | a saved state holds no private name and no set, and names exactly the public attributes |
| Snapshots.RefilterClean | super_csv/mixins.py:104-111 | saving a loaded state again keeps it as it is |
| Snapshots.DefaultOperationName | super_csv/mixins.py:114-115 | a given name is kept; otherwise `stage` iff `can_commit`, `commit` iff not |
| Snapshots.LoadClass | super_csv/mixins.py:135-140 | same class iff the recorded name matches; ValueError `"X != Y"` iff it differs and subclasses are not allowed; otherwise the recorded class is imported |
| Deferrable.Operator | super_csv/mixins.py:123 | `operating_user or get_current_user()`: an override's user wins, else the request's |
| Deferrable.OperationStore.RecordOperation | super_csv/models.py:61-73 | the record is appended and gets the next primary key |
| Deferrable.GetRecord | super_csv/mixins.py:132 | `objects.get(pk=id)` finds record id iff 1 <= id <= n, else DoesNotExist |
| Deferrable.StatusFor | super_csv/mixins.py:151-160 | the base status plus `result_id`, `saved_error_id` and `waiting == bool(result_id)`, all replaced by a `_status` dict when there is one |
| Deferrable.LoadSpec | super_csv/mixins.py:127-142 | `load(id, load_subclasses=True)`: a missing key raises DoesNotExist; otherwise the record's snapshot is loaded with its recorded class iff that class is found |
| Deferrable.RunningCommit | super_csv/mixins.py:173-177 | `commit(running_task=True)` saves once, then commits in place |
| Deferrable.OperationStore.constructor | super_csv/models.py:22-33 | an empty table; the request's user is fixed |
| Deferrable.DeferrableProcessor.constructor | super_csv/csv_processor.py:128-138 | `cls(**kwargs)`: the initial processing state and the given attributes |
| Deferrable.DeferrableProcessor.Loaded | super_csv/mixins.py:141 | `cls(**state)`: the snapshot's processing state and attributes |
| Deferrable.DeferrableProcessor.Save | super_csv/mixins.py:96-125 | one record by the class's identity, unique path, default operation name, filename and operating user, holding the filtered state; NotImplementedError without a unique path |
| Deferrable.DeferrableProcessor.Status | super_csv/mixins.py:151-160 | `status()` is StatusFor of the processor's state |
| Deferrable.DeferrableProcessor.PreprocessFile | super_csv/mixins.py:162-166 | the base pass; an `error` record is saved and its key becomes `saved_error_id` iff the pass completed with errors |
| Deferrable.DeferrableProcessor.Commit | super_csv/mixins.py:168-198 | always saves first; commits synchronously iff `running_task` or the stage is at most `size_to_defer`; else sets `result_id` when the task is pending, or `_status` to the task's status when it has finished |
| Deferrable.DeferrableProcessor.ProcessFile | super_csv/csv_processor.py:180-191 | read, this class's pass, and this class's commit only with autocommit and `can_commit` |
| Deferrable.DoDeferredCommit | super_csv/mixins.py:63-75 | load the record's processor, commit it as a running task, take its status, save again, hand the status back |
| Deferrable.RunLoaded | super_csv/mixins.py:70-75 | the loaded processor's saves and status are those of RunSpec |
| Deferrable.CleanHasNoStatus | super_csv/mixins.py:107-108 | a saved state carries no `_status` of its own |
| Deferrable.RunShape | super_csv/mixins.py:69-75 | a completed task run is two saves, of the loaded and of the committed state, and the committed status |
| Deferrable.RunRecords | super_csv/mixins.py:69-75 | the task saves twice by the loaded class and operating user: first `stage` or `commit` by the loaded state, then `commit` with an empty stage |
| Deferrable.RunStatus | super_csv/mixins.py:69-75 | the status handed back saves the staged rows that reported `did_save` and lists the loaded and new error messages |
| Deferrable.TaskRuns | super_csv/mixins.py:69 | a task on a record whose class is found runs that class on the record's snapshot |
| Deferrable.TaskCompletes | super_csv/mixins.py:63-75 | such a task on a clean, indexable snapshot completes and appends two records |
| Deferrable.SyncCommit | super_csv/mixins.py:173-177 | a small stage is committed in place after one save: no exception, stage emptied, saved count of the staged rows, attributes unchanged, record by the operating user |
| Deferrable.QueuedStatus | super_csv/mixins.py:193-196 | a pending task leaves the state as it was; `result_id` is the task id; `waiting` iff the id is non-empty |
| Deferrable.FinishedShape | super_csv/mixins.py:187-198 | a finished deferred commit is one save of this processor, then the task on that record, whose status becomes `_status` |
| Deferrable.FinishedTask | super_csv/mixins.py:63-75 | the task on that record adds two records by the same class and user, the last named `commit` |
| Deferrable.FinishedStatus | super_csv/mixins.py:178-198 | with the intended task (TaskSpec), an eager deferred commit appends exactly three records, all by the operating user, named as the saved state then `commit`; the processor's own state is kept and the status saves the staged rows that reported `did_save`; as written this holds when PlainTaskAgrees' condition does |
| Deferrable.PlainCommitStep | super_csv/mixins.py:141 | on a loaded processor, a row raising a new message makes `add_error` raise KeyError |
| Deferrable.PlainCommitLoop | super_csv/mixins.py:141 | the loaded processor's commit loop: stage emptied unless it raised, counters kept |
| Deferrable.PlainCommitAgrees | super_csv/mixins.py:141 | the as-written commit of a loaded processor equals the intended one as long as every raised message is already a key |
| Deferrable.PlainCommitRaises | super_csv/mixins.py:141 | when the first staged row of a loaded processor raises a new message, the as-written commit ends in KeyError and the intended one completes |
| Deferrable.PlainTaskAgrees | super_csv/mixins.py:63-75 | the task as written (`load`'s plain-dict error map) equals TaskSpec whenever every message a staged row of the snapshot raises is already a key |
| Deferrable.PlainTaskRaises | super_csv/mixins.py:63-75 | the task as written, when the loaded snapshot's first staged row raises a new message: one save, then KeyError naming the message |
| Processor.ProcessFileAccepted | super_csv/csv_processor.py:180-191 | an accepted file is passed, then committed iff autocommit and `can_commit` |
| Processor.ProcessFileCounts | super_csv/csv_processor.py:180-191 | a fresh processor counts every row and every staged row, and raises nothing |
| Processor.ProcessFileMarks | super_csv/csv_processor.py:186-191 | with autocommit and no rejected row, each result row is the pass's result for its row, marked Failure for each staged entry of that row that raised in `process_row` |
| Processor.ProcessFileCommits | super_csv/csv_processor.py:186-191 | with autocommit and no rejected row, every staged row is committed: saved count, undo log and failures of the staged entries |
| Processor.ProcessFileWaits | super_csv/csv_processor.py:186-191 | without autocommit, or once a row is rejected, staged rows wait: nothing saved, nothing to undo |
| Processor.CsvProcessor.constructor | super_csv/csv_processor.py:128-136 | `__init__`: the initial attributes |
| Processor.CsvProcessor.FromState | super_csv/csv_processor.py:128-138 | `__init__(**state)`: every attribute taken from the state |
| Processor.CsvProcessor.AddError | super_csv/csv_processor.py:140-144 | the error map becomes Add of the old one; nothing else changes |
| Processor.CsvProcessor.ReadFile | super_csv/csv_processor.py:194-207 | the new state and the reader outcome are those of ReadFileSpec |
| Processor.CsvProcessor.PreprocessRow | super_csv/csv_processor.py:218-231 | one row's verdict is Judge, its result ResultFor, its effect one RowStep |
| Processor.CsvProcessor.PreprocessFile | super_csv/csv_processor.py:209-234 | the loop's state and outcome are PreprocessSpec's |
| Processor.CsvProcessor.Commit | super_csv/csv_processor.py:283-303 | the drain loop's state and outcome are CommitSpec's |
| Processor.CsvProcessor.Rollback | super_csv/csv_processor.py:305-319 | the drain loop's state is RollbackSpec's |
| Processor.CsvProcessor.Status | super_csv/csv_processor.py:321-334 | `status()` is StatusOf the state |
| Processor.CsvProcessor.GetIterator | super_csv/csv_processor.py:153-178 | the lines and exception are ExportSpec's over the chosen columns and rows; only `result_data` rows are updated in place |
| Processor.CsvProcessor.ProcessFile | super_csv/csv_processor.py:180-191 | the state and outcome are ProcessFileSpec's |
| Scenarios.WriteDefault | tests/test_csv.py:95-101 | DummyProcessor writes `foo,bar`, `1,1`, `2,2` |
| Scenarios.WriteColumnOverride | tests/test_csv.py:136-147 | restricted to `foo`, it writes `foo`, `1`, `2` |
| Scenarios.WriteRowOverride | tests/test_csv.py:149-164 | given rows are written instead of the class's |
| Scenarios.IteratorErrorData | tests/test_csv.py:166-183 | error-data export adds the `status` and `error` columns |
| Scenarios.IteratorErrorColumns | tests/test_csv.py:185-202 | column override, then the error columns |
| Scenarios.ReadCounts | tests/test_csv.py:103-109 | reading the dummy file processes 2 rows |
| Scenarios.ReadCommits | tests/test_csv.py:103-108 | and saves 2 rows, logging their undo rows, with no error |
| Scenarios.CommitsTwo | super_csv/csv_processor.py:283-303 | two staged rows that save with undo rows are both saved and both logged |
| Scenarios.RollbackScenario | tests/test_csv.py:233-240 | rollback of the dummy undo log saves 1 and records `4 is not allowed` |
| Scenarios.RejectedMessages | super_csv/csv_processor.py:201-207 | a rejected file's status lists its check's message alone |
| Scenarios.MissingColumnScenario | tests/test_csv.py:121 | `foo,baz` reports `Missing column: bar` |
| Scenarios.TooLargeScenario | tests/test_csv.py:124 | a 24-byte file reports `The CSV file must be under 20 bytes` |
| Scenarios.SecondRejected | super_csv/csv_processor.py:217-234 | a staged row then a rejected one: the one error row is the rejected row's Failure result, its message is the only one, nothing saved |
| Scenarios.ValidationErrorScenario | tests/test_csv.py:122 | the one error row is the `3,3` row's result: `foo` and `bar` are `3`, `error` is `3 not allowed`, `status` is `Failure`; that message is the only one |
| Scenarios.SecondFailsToCommit | super_csv/csv_processor.py:283-303 | of two staged rows, the second failing in `process_row`: one row is saved and the failing row's message is the only error message (its result row's marking is SecondMarked) |
| Scenarios.MarkedPair | super_csv/csv_processor.py:296-301 | over a two-entry stage whose first entry saves, a result row is marked exactly when the second entry raises and is that row |
| Scenarios.SecondMarked | super_csv/csv_processor.py:296-301 | of two staged rows, the second failing in `process_row`: the saved row's result row is as the pass left it; the failing row's result row is the pass's result with `error` set to the message and `status` to `Failure` |
| Scenarios.CommitErrorScenario | tests/test_csv.py:123 | `4,4` reports `4 is not allowed` |
| Scenarios.ChecksumScenario | tests/test_csv.py:204-215 | an exported row has a five-character checksum and validates; an edited checksum is rejected |
| Scenarios.ChecksumZeroScenario | tests/test_csv.py:217-231 | `0`/None and `'0'`/`''` get the same checksum and both validate |
| Scenarios.AllStagedCount | super_csv/csv_processor.py:209-234 | a file whose rows are all staged has all of them processed |
| Scenarios.ReadBackJudged | super_csv/mixins.py:45-60 | an exported row read back is staged by a checksum processor |
| Scenarios.WrittenFileProcessed | super_csv/mixins.py:45-60 | every row of a written file is processed when read back |
| Scenarios.WriteReadScenario | tests/test_csv.py:111-118 | DummyChecksumProcessor's written file reads back with 2 rows processed |
| Scenarios.FreshStage | super_csv/csv_processor.py:209-234 | a fresh pass that stages every row leaves an indexable stage and no error |
| Scenarios.DeferScenario | tests/test_csv.py:242-274 | two rows over `size_to_defer=1`: status saves 2; three records, all by the request's user or the subclass's user; named `stage`, `stage`, `commit` |
| Scenarios.DeferSavesSet | tests/test_csv.py:242-245 | `test_set = {1, 2, 3}` is saved as a list of its members |
| Scenarios.OneRowCommit | super_csv/mixins.py:173-177 | a one-row stage is committed synchronously: not waiting, saved 1, one record |
| Scenarios.DeferTooSmallScenario | tests/test_csv.py:249-255 | the one-row file is not deferred: not waiting, and a record exists |
| Scenarios.LoadedCommitScenario | super_csv/mixins.py:69-70 | the task's commit of rows `4,4` and `1,1` as written ends in KeyError; the intended commit completes |

## Left out

- Byte-level CSV reading and writing is not modelled. The csv module's quoting, `decode_utf8`, `Echo`, `UnicodeWriter` and `UnicodeDictWriter` are all left out. A file arrives as a header and parsed rows, and a written line is its list of cells.
- The `percentage` entry of `status()` is left out, because it is floating-point formatting.
- md5 is a parameter returning 32 hexadecimal digits, so the concrete digests `@cfb0` and `@fc43` are not reproduced.
- Checksums.GetChecksum: `checksum_size` is a natural number. A negative size, which Python would slice from the end, is not modelled.
- Several external systems are replaced or left out:
  - The Django ORM and file storage are replaced by `OperationStore`.
  - JSON encoding is replaced by keeping the filtered state as a value.
  - `transaction.atomic` and the re-raised `DatabaseError` are left out.
  - Logging is left out.
  - `ugettext` is the identity.
  - `created`/`modified` timestamps and uuid file names are left out.
- JSON's conversions are not modelled, except for the one in the finding. Those conversions are the stage's tuples becoming lists and the `error_messages` defaultdict becoming a plain dict.
- The request-dependent and task-dependent values are parameters:
  - `crum.get_current_user()` is the store's `requestUser`.
  - celery's `delay`, `result.ready()` and the task id are the `ready` and `taskId` parameters, run eagerly when ready.
  - `importlib` class resolution is the `classes` parameter.
- `get_committed_history` and `get_deferred_result` are left out. They are a history query and a celery result lookup, with no logic of their own.
- `write_file` is left out. It is a loop writing `get_iterator`'s lines to a file, and `GetIterator` is modelled.
- Processor.CsvProcessor.GetIterator: when the caller passes its own rows, `preprocess_export_row` updates those dicts in place. That aliasing of caller-owned rows is not modelled; only the `result_data` rows are updated in place.
- `__init__(**kwargs)` is modelled only in two forms: with no arguments, and with a full saved state (`FromState`). Other attributes live in the `DeferrableProcessor`'s attribute list.
- The order in which `list(v)` lists a set is not fixed. `ListOfSet` promises each member exactly once.
- Deferrable.DoDeferredCommit: its specification `TaskSpec` runs the intended `commit` on the loaded processor (see Findings). The as-written behaviour is `PlainCommitSpec`, so the task lemmas describe the intended behaviour.
- Deferrable.FinishedStatus: it promises no exception and three records for every eager deferred commit of an indexable stage because `CommitDone` runs `TaskSpec`, the intended task. The same holds for what `DeferrableProcessor.Commit` and `DeferrableProcessor.ProcessFile` promise through `CommitDone`. As written, the task raises KeyError and makes only one of its two records when the first staged row raises a message not yet recorded (`PlainTaskRaises`), and it agrees with `TaskSpec` whenever every message the staged rows raise is already recorded (`PlainTaskAgrees`).
- models.py, serializers.py, signals.py, tasks.py, admin.py, apps.py, setup.py and test_settings.py are not part of this model. They are persistence, wiring and configuration.

## Findings

| source | as written | input that shows it | evidently intended | confidence | as-written member | corrected member |
|---|---|---|---|---|---|---|
| super_csv/mixins.py:141 | `load` builds the processor with `cls(**state)` from JSON. `__init__` (csv_processor.py:136-138) then replaces the `error_messages` defaultdict with a plain dict. In the task's `commit`, `add_error` of a message not yet recorded (csv_processor.py:144) raises KeyError inside the `except` block, which ends the commit | DummyDeferrableProcessor with `size_to_defer=1` and the file `foo,bar` / `4,4` / `1,1`. Both rows stage, the commit is deferred, and the task's `process_row` on `4,4` raises `4 is not allowed` | the loaded processor records the error against row 1 and goes on to save row 2, as a processor that was never saved does | not executed | Deferrable.PlainCommitRaises and Deferrable.PlainTaskRaises (instance: Scenarios.LoadedCommitScenario) | Committing.CommitAccounting (used by Deferrable.TaskCompletes) |
