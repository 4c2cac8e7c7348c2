/** DeferrableMixin (mixins.py): a processor that saves its state to a store of
    CSVOperation records and hands large commits to a background task, which loads the
    saved state into a new processor and commits there. Celery's `result.ready()` and the
    task id it hands out are parameters; `importlib`'s class lookup is a parameter too. */
module Deferrable {
  import opened Values
  import opened ErrorLogs
  import opened Overrides
  import opened States
  import opened Staging
  import opened Committing
  import opened Files
  import opened Processor
  import opened Snapshots

  /** str(NotImplementedError()), raised by the base `get_unique_path`. */
  const NotImplementedText := ""
  /** str() of the ORM's DoesNotExist for a missing primary key. */
  const DoesNotExistText := "CSVOperation matching query does not exist."
  /** The failure of importing the recorded class (its text is not modelled). */
  const ImportFailedText := "ImportError"

  /** The class `do_deferred_commit` calls `load` on. */
  const MixinName := "DeferrableMixin"

  /** A DeferrableMixin subclass: its identity, its CSVProcessor attributes and hooks,
      `size_to_defer`, what `get_unique_path()` returns (None: not overridden, so it
      raises), and the `operating_user` an override of `save` passes on (None: `save` is
      not overridden). */
  datatype ProcessorClass = ProcessorClass(
    id: ClassId,
    config: Config,
    hooks: Overrides,
    sizeToDefer: nat,
    uniquePath: Option<string>,
    savingUser: Option<string>)

  /** `CSVOperation._get_class_name(obj)`: module and class name joined by a dot. */
  function ClassName(c: ClassId): string {
    c.moduleName + "." + c.name
  }

  /** A saved processor state: the processing attributes, the other attributes as the
      filter left them, and the `__class__` tag. */
  datatype Snapshot = Snapshot(core: State, attrs: Attrs, tag: ClassId)

  /** A CSVOperation row: `class_name`, `unique_id`, `operation`, `original_filename`,
      `user` and the saved state as its `data` file. */
  datatype OperationRecord = OperationRecord(
    className: string,
    uniqueId: string,
    operation: string,
    originalFilename: string,
    user: Option<string>,
    data: Snapshot)

  /** `operating_user or get_current_user()`: the user an override of `save` names,
      or else the request's user. */
  function Operator(cls: ProcessorClass, user: Option<string>): (u: Option<string>)
    ensures cls.savingUser.Some? ==> u == cls.savingUser
    ensures cls.savingUser.None? ==> u == user
  {
    if cls.savingUser.Some? then cls.savingUser else user
  }

  /** The record `save(name)` makes of a processor of class `cls` in state `st` whose
      attributes were filtered to `saved`, while `user` is the request's user. */
  function RecordOf(cls: ProcessorClass, st: State, saved: Attrs, name: string, user: Option<string>): OperationRecord
    requires cls.uniquePath.Some?
  {
    OperationRecord(ClassName(cls.id), cls.uniquePath.value, DefaultOperationName(name, CanCommit(st)),
                    st.filename, Operator(cls, user),
                    Snapshot(st, saved, cls.id))
  }

  /** `records` grew by what `save(name)` of that processor records. */
  ghost predicate Saved(cls: ProcessorClass, st: State, attrs: Attrs, name: string, user: Option<string>,
                        before: seq<OperationRecord>, after: seq<OperationRecord>)
  {
    if cls.uniquePath.None? then after == before
    else
      && |after| == |before| + 1 && after == before + [after[|before|]]
      && var r := after[|before|];
      r == RecordOf(cls, st, r.data.attrs, name, user) && Filtered(attrs, r.data.attrs)
  }

  /** The CSVOperation table with its primary keys `1..|records|`, and the user
      `crum.get_current_user()` returns while these operations run. */
  class OperationStore {
    var records: seq<OperationRecord>
    const requestUser: Option<string>

    /** Every record holds a state as `save` writes it. */
    ghost predicate Valid()
      reads this
    {
      forall k :: 0 <= k < |records| ==> Clean(records[k].data.attrs)
    }

    constructor (requestUser: Option<string>)
      ensures records == [] && this.requestUser == requestUser && Valid()
    {
      records := [];
      this.requestUser := requestUser;
    }

    /** `CSVOperation.record_operation(...)`: the new record gets the next key. */
    method RecordOperation(r: OperationRecord) returns (id: nat)
      requires Valid() && Clean(r.data.attrs)
      modifies this
      ensures records == old(records) + [r] && id == |records| && Valid()
    {
      records := records + [r];
      id := |records|;
    }
  }

  /** `CSVOperation.objects.get(pk=id)` */
  function GetRecord(records: seq<OperationRecord>, id: nat): (r: Raises<OperationRecord>)
    ensures r.Returns? <==> 1 <= id <= |records|
    ensures r.Returns? ==> r.value == records[id - 1]
    ensures r.RaisesOther? ==> r.message == DoesNotExistText
  {
    if 1 <= id <= |records| then Returns(records[id - 1]) else RaisesOther(DoesNotExistText)
  }

  /** DeferrableMixin.status(): the base status with `result_id`, `saved_error_id` and
      `waiting`, all replaced by the `_status` a finished task handed back. */
  function StatusFor(st: State, attrs: Attrs): (s: DeferredStatus)
    ensures Lookup(attrs, "_status").Some? && Lookup(attrs, "_status").value.StatusDict? ==>
      s == Lookup(attrs, "_status").value.status
    ensures !(Lookup(attrs, "_status").Some? && Lookup(attrs, "_status").value.StatusDict?) ==>
      && s.base == StatusOf(st)
      && s.resultId == GetAttr(attrs, "result_id") && s.savedErrorId == GetAttr(attrs, "saved_error_id")
      && (s.waiting <==> AttrTruthy(GetAttr(attrs, "result_id")))
  {
    var resultId := GetAttr(attrs, "result_id");
    match Lookup(attrs, "_status")
    case Some(StatusDict(s)) => s
    case _ => DeferredStatus(StatusOf(st), resultId, GetAttr(attrs, "saved_error_id"), AttrTruthy(resultId))
  }

  /** What `do_deferred_commit(operation_id)` leaves: the records, and the status it
      returns or the exception that ends it. */
  datatype Task = Task(records: seq<OperationRecord>, outcome: Raises<DeferredStatus>)

  /** The class `load` ends up instantiating, or the exception it raises instead. */
  function Instantiate(classes: ClassId -> Option<ProcessorClass>, res: Resolution, called: ClassId): Raises<ProcessorClass> {
    match res
    case Refused(m) => RaisesOther(m)
    case Same => if classes(called).Some? then Returns(classes(called).value) else RaisesOther(ImportFailedText)
    case Import(c) => if classes(c).Some? then Returns(classes(c).value) else RaisesOther(ImportFailedText)
  }

  /** `DeferrableMixin.load(id, load_subclasses=True)`: the record under the key, and the
      class it was saved from, found through its recorded module. */
  function LoadSpec(classes: ClassId -> Option<ProcessorClass>, records: seq<OperationRecord>, id: nat): (r: Raises<(ProcessorClass, Snapshot)>)
    ensures !r.RaisesValidation?
    ensures !(1 <= id <= |records|) ==> r == RaisesOther(DoesNotExistText)
    ensures r.Returns? ==> 1 <= id <= |records| && r.value.1 == records[id - 1].data
    ensures 1 <= id <= |records| ==>
      (r.Returns? <==> classes(records[id - 1].data.tag).Some?) &&
      (r.Returns? ==> r.value.0 == classes(records[id - 1].data.tag).value)
  {
    match GetRecord(records, id)
    case RaisesValidation(m) => RaisesOther(m)
    case RaisesOther(m) => RaisesOther(m)
    case Returns(rec) =>
      match Instantiate(classes, LoadClass(rec.data.tag, MixinName, true), rec.data.tag)
      case RaisesValidation(m) => RaisesOther(m)
      case RaisesOther(m) => RaisesOther(m)
      case Returns(pc) => Returns((pc, rec.data))
  }

  /** The loaded processor's part of the task: `commit(running_task=True)` saves it and
      commits it in place, then its status is taken and it is saved again. */
  function RunSpec(pc: ProcessorClass, snap: Snapshot, records: seq<OperationRecord>, user: Option<string>): Task {
    if pc.uniquePath.None? then Task(records, RaisesOther(NotImplementedText))
    else
      var first := records + [RecordOf(pc, snap.core, snap.attrs, "", user)];
      var (st1, raised) := CommitSpec(pc.hooks.processRow, snap.core);
      if raised.Some? then Task(first, RaisesOther(raised.value))
      else Task(first + [RecordOf(pc, st1, snap.attrs, "", user)], Returns(StatusFor(st1, snap.attrs)))
  }

  /** `do_deferred_commit(operation_id)`. The loaded processor's error map is taken to
      behave as the processor's own (PlainCommitSpec is what the source does instead). */
  function TaskSpec(classes: ClassId -> Option<ProcessorClass>, records: seq<OperationRecord>, id: nat, user: Option<string>): Task {
    match LoadSpec(classes, records, id)
    case Returns((pc, snap)) => RunSpec(pc, snap, records, user)
    case RaisesValidation(m) => Task(records, RaisesOther(m))
    case RaisesOther(m) => Task(records, RaisesOther(m))
  }

  /** What DeferrableMixin.commit(running_task) does to a processor of class `cls` in
      state `st` with attributes `attrs`, the store going from `records` to `records2`:
      it always saves first; then it commits in place when `running_task` is set or the
      stage is small enough; otherwise, when the task is not finished it keeps the task
      id as `result_id`, and when it is finished it keeps the task's status as `_status`
      (or re-raises the task's exception). */
  ghost predicate CommitDone(cls: ProcessorClass, classes: ClassId -> Option<ProcessorClass>, user: Option<string>,
                             runningTask: bool, ready: bool, taskId: string,
                             st: State, attrs: Attrs, records: seq<OperationRecord>,
                             st2: State, attrs2: Attrs, records2: seq<OperationRecord>, raised: Option<string>)
  {
    if cls.uniquePath.None? then
      raised == Some(NotImplementedText) && st2 == st && attrs2 == attrs && records2 == records
    else
      && |records2| > |records|
      && Saved(cls, st, attrs, "", user, records, records2[..|records| + 1])
      && if runningTask || |st.stage| <= cls.sizeToDefer then
           && (st2, raised) == CommitSpec(cls.hooks.processRow, st)
           && attrs2 == attrs && |records2| == |records| + 1
         else if !ready then
           && st2 == st && raised == None && |records2| == |records| + 1
           && attrs2 == SetAttr(attrs, "result_id", Plain(VStr(taskId)))
         else
           var t := TaskSpec(classes, records2[..|records| + 1], |records| + 1, user);
           && st2 == st && records2 == t.records
           && (t.outcome.Returns? ==> raised == None && attrs2 == SetAttr(attrs, "_status", StatusDict(t.outcome.value)))
           && (!t.outcome.Returns? ==> raised == Some(t.outcome.message) && attrs2 == attrs)
  }

  /** `commit(running_task=True)` saves, then commits in place. */
  lemma RunningCommit(cls: ProcessorClass, classes: ClassId -> Option<ProcessorClass>, user: Option<string>,
                      ready: bool, taskId: string,
                      st: State, attrs: Attrs, records: seq<OperationRecord>,
                      st2: State, attrs2: Attrs, records2: seq<OperationRecord>, raised: Option<string>)
    requires CommitDone(cls, classes, user, true, ready, taskId, st, attrs, records, st2, attrs2, records2, raised)
    ensures cls.uniquePath.None? ==> raised == Some(NotImplementedText) && records2 == records
    ensures cls.uniquePath.Some? ==>
      && |records2| == |records| + 1 && records2[..|records|] == records
      && records2[|records|] == RecordOf(cls, st, records2[|records|].data.attrs, "", user)
      && Filtered(attrs, records2[|records|].data.attrs)
      && (st2, raised) == CommitSpec(cls.hooks.processRow, st) && attrs2 == attrs
  {
    if cls.uniquePath.Some? {
      assert records2[..|records| + 1][..|records|] == records2[..|records|];
    }
  }

  /** A DeferrableMixin processor: the CSVProcessor state, its other attributes, and the
      store it saves to. */
  class DeferrableProcessor {
    const cls: ProcessorClass
    const core: CsvProcessor
    const store: OperationStore
    var attrs: Attrs

    ghost predicate Valid()
      reads this, store
    {
      core.config == cls.config && core.hooks == cls.hooks && store.Valid()
    }

    /** `cls(**kwargs)` with extra attributes `attrs`. */
    constructor (cls: ProcessorClass, store: OperationStore, attrs: Attrs)
      requires store.Valid()
      ensures this.cls == cls && this.store == store && this.attrs == attrs
      ensures fresh(core) && core.Model() == Initial && Valid()
    {
      this.cls := cls;
      this.store := store;
      this.attrs := attrs;
      core := new CsvProcessor(cls.config, cls.hooks);
    }

    /** `cls(**state)` in `load`. */
    constructor Loaded(cls: ProcessorClass, store: OperationStore, snapshot: Snapshot)
      requires store.Valid()
      ensures this.cls == cls && this.store == store && attrs == snapshot.attrs
      ensures fresh(core) && core.Model() == snapshot.core && Valid()
    {
      this.cls := cls;
      this.store := store;
      this.attrs := snapshot.attrs;
      core := new CsvProcessor.FromState(cls.config, cls.hooks, snapshot.core);
    }

    /** `save(operation_name)`, through the class's override when it has one; the empty
        name stands for None. The record names the override's `operating_user`, or else
        the request's user. */
    method Save(name: string) returns (id: nat, raised: Option<string>)
      requires Valid()
      modifies store
      ensures Valid()
      ensures Saved(cls, core.Model(), attrs, name, store.requestUser, old(store.records), store.records)
      ensures raised.Some? <==> cls.uniquePath.None?
      ensures raised.Some? ==> raised.value == NotImplementedText
      ensures raised.None? ==> id == |store.records|
    {
      var saved := FilterState(attrs);
      FilteredClean(attrs, saved);
      if cls.uniquePath.None? {
        return 0, Some(NotImplementedText);
      }
      var r := RecordOf(cls, core.Model(), saved, name, store.requestUser);
      id := store.RecordOperation(r);
      raised := None;
    }

    /** `status()`, the entry point on the object; what the status holds is stated and
        proved on StatusFor. */
    method Status() returns (s: DeferredStatus)
      ensures s == StatusFor(core.Model(), attrs)
    {
      s := StatusFor(core.Model(), attrs);
    }

    /** DeferrableMixin.preprocess_file(reader): the pass, then an `'error'` snapshot
        whose key becomes `saved_error_id` when errors were recorded. */
    method PreprocessFile(rows: seq<Row>) returns (raised: Option<string>)
      requires Valid()
      modifies core, this, store
      ensures Valid()
      ensures var (st, failed) := PreprocessSpec(cls.hooks, old(core.Model()), rows);
        && core.Model() == st
        && (failed.Some? || st.errorMessages.IsEmpty() ==>
              raised == failed && attrs == old(attrs) && store.records == old(store.records))
        && (failed.None? && !st.errorMessages.IsEmpty() ==>
              && Saved(cls, st, old(attrs), "error", store.requestUser, old(store.records), store.records)
              && (cls.uniquePath.None? ==> raised == Some(NotImplementedText) && attrs == old(attrs))
              && (cls.uniquePath.Some? ==>
                    raised == None && attrs == SetAttr(old(attrs), "saved_error_id", Plain(VInt(|store.records|)))))
    {
      raised := core.PreprocessFile(rows);
      if raised.Some? || core.errorMessages.IsEmpty() {
        return;
      }
      var id, failed := Save("error");
      if failed.Some? {
        return failed;
      }
      attrs := SetAttr(attrs, "saved_error_id", Plain(VInt(id)));
    }

    /** DeferrableMixin.commit(running_task); `ready` is what `result.ready()` answers for
        the task enqueued under `taskId`. */
    method Commit(runningTask: bool, ready: bool, taskId: string, classes: ClassId -> Option<ProcessorClass>)
      returns (raised: Option<string>)
      requires Valid()
      modifies core, this, store
      ensures Valid()
      ensures CommitDone(cls, classes, store.requestUser, runningTask, ready, taskId,
                         old(core.Model()), old(attrs), old(store.records),
                         core.Model(), attrs, store.records, raised)
      decreases if runningTask then 0 else 3
    {
      ghost var records0 := store.records;
      var id, failed := Save("");
      if failed.Some? {
        return failed;
      }
      ghost var records1 := store.records;
      assert store.records[..|records0| + 1] == records1;
      if runningTask || |core.stage| <= cls.sizeToDefer {
        raised := core.Commit();
        return;
      }
      if !ready {
        attrs := SetAttr(attrs, "result_id", Plain(VStr(taskId)));
        return None;
      }
      var outcome := DoDeferredCommit(store, id, classes);
      assert store.records[..|records0| + 1] == records1;
      if outcome.Returns? {
        attrs := SetAttr(attrs, "_status", StatusDict(outcome.value));
        raised := None;
      } else {
        raised := Some(outcome.message);
      }
    }

    /** `process_file(thefile, autocommit)` on this processor: the base reading, this
        class's `preprocess_file`, and this class's `commit()` when asked to and
        `can_commit` holds. */
    method ProcessFile(file: CsvFile, autocommit: bool, ready: bool, taskId: string, classes: ClassId -> Option<ProcessorClass>)
      returns (raised: Option<string>)
      requires Valid()
      modifies core, this, store
      ensures Valid()
      ensures var (s1, read) := ReadFileSpec(cls.config, old(core.Model()), file);
        && (!read.Reader? ==>
              && core.Model() == s1 && attrs == old(attrs) && store.records == old(store.records)
              && raised == if read.ReadRaised? then Some(read.message) else None)
        && (read.Reader? ==>
              var (s2, failed) := PreprocessSpec(cls.hooks, s1, file.rows);
              && (failed.Some? ==>
                    core.Model() == s2 && attrs == old(attrs) && store.records == old(store.records) && raised == failed)
              && (failed.None? && !s2.errorMessages.IsEmpty() ==>
                    && core.Model() == s2
                    && Saved(cls, s2, old(attrs), "error", store.requestUser, old(store.records), store.records)
                    && (cls.uniquePath.None? ==> raised == Some(NotImplementedText) && attrs == old(attrs))
                    && (cls.uniquePath.Some? ==>
                          raised == None && attrs == SetAttr(old(attrs), "saved_error_id", Plain(VInt(|store.records|)))))
              && (failed.None? && s2.errorMessages.IsEmpty() && !(autocommit && CanCommit(s2)) ==>
                    core.Model() == s2 && attrs == old(attrs) && store.records == old(store.records) && raised == None)
              && (failed.None? && autocommit && CanCommit(s2) ==>
                    CommitDone(cls, classes, store.requestUser, false, ready, taskId,
                               s2, old(attrs), old(store.records), core.Model(), attrs, store.records, raised)))
    {
      var read := core.ReadFile(file);
      if read.ReadRaised? {
        return Some(read.message);
      }
      raised := None;
      if read == Reader {
        raised := PreprocessFile(file.rows);
        if raised.None? && autocommit && core.CanCommit() {
          raised := Commit(false, ready, taskId, classes);
        }
      }
    }
  }

  /** `do_deferred_commit(operation_id)`, run where the store is. */
  method DoDeferredCommit(store: OperationStore, id: nat, classes: ClassId -> Option<ProcessorClass>)
    returns (outcome: Raises<DeferredStatus>)
    requires store.Valid()
    modifies store
    ensures store.Valid()
    ensures Task(store.records, outcome) == TaskSpec(classes, old(store.records), id, store.requestUser)
    decreases 2
  {
    var loaded := LoadSpec(classes, store.records, id);
    if !loaded.Returns? {
      return RaisesOther(loaded.message);
    }
    var (pc, snap) := loaded.value;
    assert Clean(snap.attrs);
    outcome := RunLoaded(store, pc, snap, classes);
  }

  /** The task's work on the processor `load` made. */
  method RunLoaded(store: OperationStore, pc: ProcessorClass, snap: Snapshot, classes: ClassId -> Option<ProcessorClass>)
    returns (outcome: Raises<DeferredStatus>)
    requires store.Valid() && Clean(snap.attrs)
    modifies store
    ensures store.Valid()
    ensures Task(store.records, outcome) == RunSpec(pc, snap, old(store.records), store.requestUser)
    decreases 1
  {
    var instance := new DeferrableProcessor.Loaded(pc, store, snap);
    ghost var records0 := store.records;
    var raised := instance.Commit(true, false, "", classes);
    RunningCommit(pc, classes, store.requestUser, false, "", snap.core, snap.attrs, records0,
                  instance.core.Model(), instance.attrs, store.records, raised);
    if pc.uniquePath.None? {
      return RaisesOther(raised.value);
    }
    ghost var user := store.requestUser;
    ghost var st1 := instance.core.Model();
    RefilterClean(snap.attrs, store.records[|records0|].data.attrs);
    assert store.records == records0 + [RecordOf(pc, snap.core, snap.attrs, "", user)];
    if raised.Some? {
      return RaisesOther(raised.value);
    }
    var status := instance.Status();
    ghost var records1 := store.records;
    assert instance.attrs == snap.attrs && instance.core.Model() == st1;
    var _, _ := instance.Save("");
    ghost var r2 := store.records[|records1|];
    assert r2 == RecordOf(pc, st1, r2.data.attrs, "", user) && Filtered(snap.attrs, r2.data.attrs);
    RefilterClean(snap.attrs, r2.data.attrs);
    assert store.records == records1 + [r2];
    outcome := Returns(status);
    assert outcome == Returns(StatusFor(st1, snap.attrs));
  }

  // ---- what the task leaves ----

  /** A saved state has no private attribute, so no `_status` of its own. */
  lemma CleanHasNoStatus(attrs: Attrs)
    requires Clean(attrs)
    ensures Lookup(attrs, "_status").None?
  {
  }

  /** The loaded processor's part when its commit completes with state `st1`: a save
      of the loaded state, a save of the committed one, and the committed state's status. */
  lemma RunShape(pc: ProcessorClass, snap: Snapshot, records: seq<OperationRecord>, user: Option<string>, st1: State)
    requires pc.uniquePath.Some? && CommitSpec(pc.hooks.processRow, snap.core) == (st1, None)
    ensures RunSpec(pc, snap, records, user) ==
      Task(records + [RecordOf(pc, snap.core, snap.attrs, "", user), RecordOf(pc, st1, snap.attrs, "", user)],
           Returns(StatusFor(st1, snap.attrs)))
  {
  }

  /** On a snapshot whose staged row numbers index its result rows, the loaded processor
      saves twice by its class: first as `stage` or `commit` by the loaded state, then as
      `commit` once the stage is empty. */
  lemma RunRecords(pc: ProcessorClass, snap: Snapshot, records: seq<OperationRecord>, user: Option<string>)
    requires pc.uniquePath.Some? && Indexable(snap.core.stage, snap.core.resultData)
    ensures var t := RunSpec(pc, snap, records, user);
      && t.outcome.Returns?
      && |t.records| == |records| + 2 && t.records[..|records|] == records
      && t.records[|records|].operation == DefaultOperationName("", CanCommit(snap.core))
      && t.records[|records| + 1].operation == "commit"
      && t.records[|records| + 1].data.core.stage == []
      && (forall k :: |records| <= k < |t.records| ==>
            t.records[k].user == Operator(pc, user) && t.records[k].uniqueId == pc.uniquePath.value)
  {
    CommitAccounting(pc.hooks.processRow, snap.core);
    var st1 := CommitSpec(pc.hooks.processRow, snap.core).0;
    RunShape(pc, snap, records, user, st1);
  }

  /** On a clean snapshot whose staged row numbers index its result rows, the loaded
      processor hands back the base status of the committed state, whose saved count is
      that of the staged rows that reported `did_save` and whose error messages are the
      loaded ones followed by the new ones. */
  lemma RunStatus(pc: ProcessorClass, snap: Snapshot, records: seq<OperationRecord>, user: Option<string>)
    requires pc.uniquePath.Some? && Clean(snap.attrs) && Indexable(snap.core.stage, snap.core.resultData)
    ensures var t := RunSpec(pc, snap, records, user);
      && t.outcome.Returns?
      && t.outcome.value.base.saved == SavedCount(pc.hooks.processRow, snap.core.stage)
      && t.outcome.value.base.errorMessages ==
           AddAll(snap.core.errorMessages, Failures(pc.hooks.processRow, snap.core.stage)).Keys()
  {
    CommitAccounting(pc.hooks.processRow, snap.core);
    var st1 := CommitSpec(pc.hooks.processRow, snap.core).0;
    RunShape(pc, snap, records, user, st1);
    CleanHasNoStatus(snap.attrs);
  }

  /** A task on a record whose class is found runs that class's processor on the
      record's snapshot. */
  lemma TaskRuns(classes: ClassId -> Option<ProcessorClass>, records: seq<OperationRecord>, id: nat, user: Option<string>)
    requires 1 <= id <= |records| && classes(records[id - 1].data.tag).Some?
    ensures TaskSpec(classes, records, id, user) ==
      RunSpec(classes(records[id - 1].data.tag).value, records[id - 1].data, records, user)
  {
  }

  /** A task on a record whose class is found and whose snapshot is clean and indexable
      completes, as RunRecords and RunStatus describe, with that class. */
  lemma TaskCompletes(classes: ClassId -> Option<ProcessorClass>, records: seq<OperationRecord>, id: nat, user: Option<string>)
    requires 1 <= id <= |records|
    requires var snap := records[id - 1].data;
      classes(snap.tag).Some? && classes(snap.tag).value.uniquePath.Some? && Clean(snap.attrs)
      && Indexable(snap.core.stage, snap.core.resultData)
    ensures var snap := records[id - 1].data; var pc := classes(snap.tag).value;
      TaskSpec(classes, records, id, user) == RunSpec(pc, snap, records, user)
      && RunSpec(pc, snap, records, user).outcome.Returns?
      && |RunSpec(pc, snap, records, user).records| == |records| + 2
  {
    TaskRuns(classes, records, id, user);
    RunRecords(classes(records[id - 1].data.tag).value, records[id - 1].data, records, user);
  }

  /** A stage no longer than `size_to_defer` is committed in place after one save: with
      indexable row numbers the commit completes, saves the rows that report `did_save`,
      and leaves the other attributes alone. */
  lemma SyncCommit(cls: ProcessorClass, classes: ClassId -> Option<ProcessorClass>, user: Option<string>,
                   ready: bool, taskId: string, st: State, attrs: Attrs, records: seq<OperationRecord>,
                   st2: State, attrs2: Attrs, records2: seq<OperationRecord>, raised: Option<string>)
    requires CommitDone(cls, classes, user, false, ready, taskId, st, attrs, records, st2, attrs2, records2, raised)
    requires cls.uniquePath.Some? && |st.stage| <= cls.sizeToDefer && Indexable(st.stage, st.resultData)
    ensures raised.None? && attrs2 == attrs && st2.stage == []
    ensures st2.savedRows == SavedCount(cls.hooks.processRow, st.stage)
    ensures |records2| == |records| + 1 && records2[..|records|] == records
    ensures records2[|records|].user == Operator(cls, user)
    ensures records2[|records|].operation == DefaultOperationName("", CanCommit(st))
  {
    CommitAccounting(cls.hooks.processRow, st);
    assert records2 == records2[..|records| + 1];
  }

  /** A deferred commit whose task is still pending leaves the processor's state as it
      was and reports `waiting` exactly when the task id is not empty. */
  lemma QueuedStatus(cls: ProcessorClass, classes: ClassId -> Option<ProcessorClass>, user: Option<string>,
                     taskId: string, st: State, attrs: Attrs, records: seq<OperationRecord>,
                     st2: State, attrs2: Attrs, records2: seq<OperationRecord>, raised: Option<string>)
    requires CommitDone(cls, classes, user, false, false, taskId, st, attrs, records, st2, attrs2, records2, raised)
    requires cls.uniquePath.Some? && |st.stage| > cls.sizeToDefer
    requires Lookup(attrs, "_status").None?
    ensures raised.None? && st2 == st && |records2| == |records| + 1
    ensures StatusFor(st2, attrs2).base == StatusOf(st)
    ensures StatusFor(st2, attrs2).resultId == Plain(VStr(taskId))
    ensures StatusFor(st2, attrs2).waiting <==> taskId != ""
  {
  }

  /** A deferred commit whose task has finished, spelled out: one save of this
      processor, then the task on that record. */
  lemma FinishedShape(cls: ProcessorClass, classes: ClassId -> Option<ProcessorClass>, user: Option<string>,
                      taskId: string, st: State, attrs: Attrs, records: seq<OperationRecord>,
                      st2: State, attrs2: Attrs, records2: seq<OperationRecord>, raised: Option<string>)
    requires CommitDone(cls, classes, user, false, true, taskId, st, attrs, records, st2, attrs2, records2, raised)
    requires cls.uniquePath.Some? && |st.stage| > cls.sizeToDefer
    ensures |records2| > |records|
    ensures var r := records2[|records|]; var t := TaskSpec(classes, records + [r], |records| + 1, user);
      && r == RecordOf(cls, st, r.data.attrs, "", user) && Filtered(attrs, r.data.attrs)
      && st2 == st && records2 == t.records
      && (t.outcome.Returns? ==> raised == None && attrs2 == SetAttr(attrs, "_status", StatusDict(t.outcome.value)))
  {
  }

  /** What the task leaves when the record it loads was saved by a processor of a class
      that is found: two more records by the same class, and the status RunStatus
      describes. */
  lemma FinishedTask(cls: ProcessorClass, classes: ClassId -> Option<ProcessorClass>, user: Option<string>,
                     st: State, attrs: Attrs, records: seq<OperationRecord>, r: OperationRecord)
    requires cls.uniquePath.Some? && classes(cls.id) == Some(cls) && Indexable(st.stage, st.resultData)
    requires r == RecordOf(cls, st, r.data.attrs, "", user) && Filtered(attrs, r.data.attrs)
    ensures var t := TaskSpec(classes, records + [r], |records| + 1, user);
      && t.outcome.Returns? && |t.records| == |records| + 3 && t.records[..|records| + 1] == records + [r]
      && (forall k :: |records| <= k < |t.records| ==> t.records[k].user == Operator(cls, user))
      && t.records[|records|].operation == t.records[|records| + 1].operation == DefaultOperationName("", CanCommit(st))
      && t.records[|records| + 2].operation == "commit"
      && t.outcome.value.base.saved == SavedCount(cls.hooks.processRow, st.stage)
  {
    var first := records + [r];
    FilteredClean(attrs, r.data.attrs);
    TaskRuns(classes, first, |records| + 1, user);
    RunRecords(cls, r.data, first, user);
    RunStatus(cls, r.data, first, user);
    var t := RunSpec(cls, r.data, first, user);
    forall k | |records| <= k < |t.records|
      ensures t.records[k].user == Operator(cls, user)
    {
      if k == |records| {
        assert t.records[k] == first[k];
      }
    }
  }

  /** A deferred commit whose task has finished hands back the task's status: with the
      class found, a clean state and indexable row numbers, it saves three times, all by
      the class's operating user or the request's user, first twice under the operation
      name of the state it saves and then as `commit`; it leaves this processor's own
      state (its stage included) as it was, and reports the saved count of the staged
      rows. */
  lemma FinishedStatus(cls: ProcessorClass, classes: ClassId -> Option<ProcessorClass>, user: Option<string>,
                       taskId: string, st: State, attrs: Attrs, records: seq<OperationRecord>,
                       st2: State, attrs2: Attrs, records2: seq<OperationRecord>, raised: Option<string>)
    requires CommitDone(cls, classes, user, false, true, taskId, st, attrs, records, st2, attrs2, records2, raised)
    requires cls.uniquePath.Some? && |st.stage| > cls.sizeToDefer && classes(cls.id) == Some(cls)
    requires Indexable(st.stage, st.resultData)
    ensures raised.None? && st2 == st && |records2| == |records| + 3 && records2[..|records|] == records
    ensures forall k :: |records| <= k < |records2| ==> records2[k].user == Operator(cls, user)
    ensures records2[|records|].operation == records2[|records| + 1].operation == DefaultOperationName("", CanCommit(st))
    ensures records2[|records| + 2].operation == "commit"
    ensures StatusFor(st2, attrs2).base.saved == SavedCount(cls.hooks.processRow, st.stage)
  {
    FinishedShape(cls, classes, user, taskId, st, attrs, records, st2, attrs2, records2, raised);
    var r := records2[|records|];
    FinishedTask(cls, classes, user, st, attrs, records, r);
    assert records2[..|records|] == (records + [r])[..|records|];
  }

  // ---- the loaded processor's error map, as the source has it ----

  /** One commit step of a processor made by `load`: its `error_messages` came back from
      JSON as a plain dict, so `add_error` of a message that is not yet a key raises
      KeyError, from inside the `except` block, ending the loop. */
  function PlainCommitStep(process: Row -> Raises<Applied>, saved: nat, st: State): (d: Drain)
    requires st.stage != []
    ensures SameCounters(d.state, st)
    ensures d.state.stage == st.stage[1..]
    ensures var r := process(st.stage[0].row);
      !r.Returns? && !Has(st.errorMessages, r.message) ==> d.raised == Some(KeyErrorText(r.message))
  {
    var r := process(st.stage[0].row);
    if !r.Returns? && !Has(st.errorMessages, r.message) then
      Drain(saved, st.(stage := st.stage[1..]), Some(KeyErrorText(r.message)))
    else CommitStep(process, saved, st)
  }

  function PlainCommitLoop(process: Row -> Raises<Applied>, saved: nat, st: State): (d: Drain)
    ensures SameCounters(d.state, st)
    ensures d.raised.None? ==> d.state.stage == []
    decreases |st.stage|
  {
    if st.stage == [] then Drain(saved, st, None)
    else
      var d := PlainCommitStep(process, saved, st);
      if d.raised.Some? then d else PlainCommitLoop(process, d.saved, d.state)
  }

  /** `commit()` on a loaded processor, as written. */
  function PlainCommitSpec(process: Row -> Raises<Applied>, st: State): (r: (State, Option<string>))
  {
    var d := PlainCommitLoop(process, 0, st);
    if d.raised.None? then (d.state.(savedRows := d.saved), None) else (d.state, d.raised)
  }

  /** Every message raised by a staged row is already a key. */
  ghost predicate KnownFailures(process: Row -> Raises<Applied>, entries: seq<Entry>, log: ErrorLog) {
    forall k :: 0 <= k < |entries| && !process(entries[k].row).Returns? ==> Has(log, process(entries[k].row).message)
  }

  /** The as-written commit agrees with the intended one exactly as long as no staged row
      raises a message that is not already recorded. */
  lemma {:induction false} PlainCommitAgrees(process: Row -> Raises<Applied>, saved: nat, st: State)
    requires KnownFailures(process, st.stage, st.errorMessages)
    ensures PlainCommitLoop(process, saved, st) == CommitLoop(process, saved, st)
    decreases |st.stage|
  {
    if st.stage != [] {
      var d := CommitStep(process, saved, st);
      assert PlainCommitStep(process, saved, st) == d by {
        assert !process(st.stage[0].row).Returns? ==> Has(st.errorMessages, process(st.stage[0].row).message);
      }
      if d.raised.None? {
        assert KnownFailures(process, d.state.stage, d.state.errorMessages) by {
          forall k | 0 <= k < |d.state.stage| && !process(d.state.stage[k].row).Returns?
            ensures Has(d.state.errorMessages, process(d.state.stage[k].row).message)
          {
            assert d.state.stage[k] == st.stage[k + 1];
            CommitStepEffects(process, saved, st);
            AddAllKeys(st.errorMessages, Failures(process, [st.stage[0]]));
          }
        }
        PlainCommitAgrees(process, d.saved, d.state);
      }
    }
  }

  /** The discrepancy: when the first staged row of a loaded processor raises a message
      not yet recorded, the as-written commit ends with a KeyError naming that message,
      while the intended one records it and completes. */
  lemma PlainCommitRaises(process: Row -> Raises<Applied>, st: State)
    requires st.stage != [] && Indexable(st.stage, st.resultData)
    requires !process(st.stage[0].row).Returns? && !Has(st.errorMessages, process(st.stage[0].row).message)
    ensures PlainCommitSpec(process, st).1 == Some(KeyErrorText(process(st.stage[0].row).message))
    ensures CommitSpec(process, st).1 == None
  {
    CommitLoopCompletes(process, 0, st);
  }

  /** The loaded processor's part of the task as written: RunSpec with the as-written
      commit of a processor made by `load`. */
  function PlainRunSpec(pc: ProcessorClass, snap: Snapshot, records: seq<OperationRecord>, user: Option<string>): Task {
    if pc.uniquePath.None? then Task(records, RaisesOther(NotImplementedText))
    else
      var first := records + [RecordOf(pc, snap.core, snap.attrs, "", user)];
      var (st1, raised) := PlainCommitSpec(pc.hooks.processRow, snap.core);
      if raised.Some? then Task(first, RaisesOther(raised.value))
      else Task(first + [RecordOf(pc, st1, snap.attrs, "", user)], Returns(StatusFor(st1, snap.attrs)))
  }

  /** `do_deferred_commit(operation_id)` as written. */
  function PlainTaskSpec(classes: ClassId -> Option<ProcessorClass>, records: seq<OperationRecord>, id: nat, user: Option<string>): Task {
    match LoadSpec(classes, records, id)
    case Returns((pc, snap)) => PlainRunSpec(pc, snap, records, user)
    case RaisesValidation(m) => Task(records, RaisesOther(m))
    case RaisesOther(m) => Task(records, RaisesOther(m))
  }

  /** The task as written does what TaskSpec says whenever every message a staged row of
      the loaded snapshot raises is already a key of its error map: then all that the
      task lemmas (TaskCompletes, FinishedTask, FinishedStatus) state holds of the source
      too. */
  lemma PlainTaskAgrees(classes: ClassId -> Option<ProcessorClass>, records: seq<OperationRecord>, id: nat, user: Option<string>)
    requires 1 <= id <= |records|
    requires var snap := records[id - 1].data;
      classes(snap.tag).Some?
      && KnownFailures(classes(snap.tag).value.hooks.processRow, snap.core.stage, snap.core.errorMessages)
    ensures PlainTaskSpec(classes, records, id, user) == TaskSpec(classes, records, id, user)
  {
    var snap := records[id - 1].data;
    PlainCommitAgrees(classes(snap.tag).value.hooks.processRow, 0, snap.core);
  }

  /** The task as written, when the first staged row of the loaded snapshot raises a
      message that is not yet a key: it saves once, then ends with the KeyError, so the
      eager deferred commit re-raises it and only one of the two task records is made. */
  lemma PlainTaskRaises(classes: ClassId -> Option<ProcessorClass>, records: seq<OperationRecord>, id: nat, user: Option<string>)
    requires 1 <= id <= |records|
    requires var snap := records[id - 1].data;
      classes(snap.tag).Some? && classes(snap.tag).value.uniquePath.Some? && snap.core.stage != []
      && var r := classes(snap.tag).value.hooks.processRow(snap.core.stage[0].row);
      !r.Returns? && !Has(snap.core.errorMessages, r.message)
    ensures var snap := records[id - 1].data; var pc := classes(snap.tag).value;
      var t := PlainTaskSpec(classes, records, id, user);
      && t.outcome == RaisesOther(KeyErrorText(pc.hooks.processRow(snap.core.stage[0].row).message))
      && t.records == records + [RecordOf(pc, snap.core, snap.attrs, "", user)]
  {
    var snap := records[id - 1].data;
    var process := classes(snap.tag).value.hooks.processRow;
    assert PlainCommitLoop(process, 0, snap.core).raised == Some(KeyErrorText(process(snap.core.stage[0].row).message));
  }
}
