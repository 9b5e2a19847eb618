/** Model of orchestrator/database.py: the five SQLite tables of `DatabaseManager` held in
    memory, the INSERT/UPDATE statements as methods that change them, the retention sweep
    as filters, and the lookups as queries over the rows.

    Timestamps are integer seconds on one clock, supplied by the caller wherever the source
    reads the clock or relies on `CURRENT_TIMESTAMP`. JSON columns hold the text the caller
    has already serialised. */
module Database {
  import opened Wrappers
  import opened Seqs

  const SecondsPerDay := 86400

  /** `datetime.now() - timedelta(days=days)`, in seconds. */
  function Cutoff(days: int, now: int): int {
    now - days * SecondsPerDay
  }

  /** A row of `uploaded_files`. */
  datatype FileRow = FileRow(
    id: int,
    fileId: string,
    userId: int,
    originalName: string,
    securePath: string,
    fileSize: int,
    mimeType: string,
    checksum: string,
    uploadTimestamp: int,
    validationJson: string,
    metadataJson: string,
    status: string,
    processedTimestamp: Option<int>,
    taskId: Option<string>,
    errorMessage: Option<string>)

  /** A row of `task_executions`. */
  datatype TaskRow = TaskRow(
    id: int,
    taskId: string,
    taskKind: string,
    userId: int,
    parametersJson: string,
    status: string,
    createdTimestamp: int,
    startedTimestamp: Option<int>,
    completedTimestamp: Option<int>,
    durationSeconds: Option<int>,
    success: Option<bool>,
    errorMessage: Option<string>,
    outputFiles: Option<seq<string>>)

  /** A row of `audit_events`. */
  datatype AuditRow = AuditRow(
    id: int,
    eventType: string,
    userId: int,
    taskId: Option<string>,
    fileId: Option<string>,
    timestamp: int,
    detailsJson: string,
    ipAddress: Option<string>,
    userAgent: Option<string>,
    severity: string)

  /** A row of `file_operations`. */
  datatype FileOperationRow = FileOperationRow(
    id: int,
    operationType: string,
    fileId: string,
    taskId: Option<string>,
    operationTimestamp: int,
    sourcePath: Option<string>,
    targetPath: Option<string>,
    operationStatus: string,
    detailsJson: Option<string>)

  /** A row of `security_events`. */
  datatype SecurityRow = SecurityRow(
    id: int,
    eventType: string,
    userId: int,
    timestamp: int,
    severity: string,
    description: string,
    detailsJson: Option<string>,
    ipAddress: Option<string>,
    resolved: bool,
    resolutionNotes: Option<string>)

  /** The `UploadedFile` record handed to `record_file_upload`. */
  datatype UploadedFile = UploadedFile(
    fileId: string, userId: int, originalName: string, securePath: string, fileSize: int,
    mimeType: string, checksum: string, validationJson: string, metadataJson: string, status: string)

  /** The `TaskExecution` record handed to `record_task_execution`. */
  datatype TaskExecution = TaskExecution(
    taskId: string, taskKind: string, userId: int, parametersJson: string, status: string,
    createdTimestamp: Option<int>)

  /** The `AuditEvent` record handed to `record_audit_event`; its own timestamp is not stored. */
  datatype AuditEvent = AuditEvent(
    eventType: string, userId: int, timestamp: int, detailsJson: string, taskId: Option<string>,
    fileId: Option<string>, ipAddress: Option<string>, userAgent: Option<string>, severity: string)

  /** Rows stay in increasing id order and `file_id` is UNIQUE. */
  predicate FileOrder(a: FileRow, b: FileRow) {
    a.id < b.id && a.fileId != b.fileId
  }

  /** Rows stay in increasing id order and `task_id` is UNIQUE. */
  predicate TaskOrder(a: TaskRow, b: TaskRow) {
    a.id < b.id && a.taskId != b.taskId
  }

  predicate AuditOrder(a: AuditRow, b: AuditRow) {
    a.id < b.id
  }

  predicate OperationOrder(a: FileOperationRow, b: FileOperationRow) {
    a.id < b.id
  }

  predicate SecurityOrder(a: SecurityRow, b: SecurityRow) {
    a.id < b.id
  }

  function FileRowId(r: FileRow): int { r.id }
  function TaskRowId(r: TaskRow): int { r.id }
  function AuditRowId(r: AuditRow): int { r.id }
  function OperationRowId(r: FileOperationRow): int { r.id }
  function SecurityRowId(r: SecurityRow): int { r.id }

  /** A table whose rows are ordered by `rel` and whose ids lie between 1 and the last id
      AUTOINCREMENT handed out. */
  predicate TableOk<T>(rows: seq<T>, last: int, idOf: T -> int, rel: (T, T) -> bool) {
    && last >= 0
    && Pairwise(rows, rel)
    && forall k :: 0 <= k < |rows| ==> 1 <= idOf(rows[k]) <= last
  }

  /** An INSERT with the next id keeps a table well ordered. */
  lemma TableOkAppend<T>(rows: seq<T>, last: int, idOf: T -> int, rel: (T, T) -> bool, row: T)
    requires TableOk(rows, last, idOf, rel)
    requires idOf(row) == last + 1
    requires forall k :: 0 <= k < |rows| ==> rel(rows[k], row)
    ensures TableOk(rows + [row], last + 1, idOf, rel)
  {
    PairwiseAppend(rows, row, rel);
    var r := rows + [row];
    assert forall k :: 0 <= k < |rows| ==> r[k] == rows[k];
  }

  /** A DELETE keeps a table well ordered. */
  lemma TableOkFilter<T>(rows: seq<T>, last: int, idOf: T -> int, rel: (T, T) -> bool, p: T -> bool)
    requires TableOk(rows, last, idOf, rel)
    ensures TableOk(Filter(rows, p), last, idOf, rel)
  {
    FilterPairwise(rows, p, rel);
    FilterKeepsProperty(rows, p, (x: T) => 1 <= idOf(x) <= last);
  }

  predicate HasFileId(rows: seq<FileRow>, fileId: string) {
    exists k :: 0 <= k < |rows| && rows[k].fileId == fileId
  }

  predicate HasTaskId(rows: seq<TaskRow>, taskId: string) {
    exists k :: 0 <= k < |rows| && rows[k].taskId == taskId
  }

  /** The `SET` of `update_file_status` applied to one row. */
  function UpdatedFile(row: FileRow, status: string, taskId: Option<string>, errorMessage: Option<string>, now: int): FileRow {
    row.(status := status, taskId := taskId, errorMessage := errorMessage, processedTimestamp := Some(now))
  }

  /** The duration `update_task_status` stores: only for "completed" or "failed", and only
      when the row has a start time. */
  function Duration(status: string, started: Option<int>, now: int): (d: Option<int>)
    ensures d.Some? <==> (status == "completed" || status == "failed") && started.Some?
    ensures d.Some? ==> d.value == now - started.value
  {
    if (status == "completed" || status == "failed") && started.Some? then Some(now - started.value) else None
  }

  /** `json.dumps(output_files) if output_files else None`. */
  function OutputFilesColumn(outputFiles: seq<string>): (c: Option<seq<string>>)
    ensures c == None <==> outputFiles == []
    ensures c.Some? ==> c.value == outputFiles
  {
    if outputFiles == [] then None else Some(outputFiles)
  }

  /** The `SET` of `update_task_status` applied to one row. "running" stamps the start time
      and every other status the completion time; status, success, error, output files and
      duration are overwritten on every call. */
  function UpdatedTask(row: TaskRow, status: string, success: Option<bool>, errorMessage: Option<string>,
                       outputFiles: seq<string>, duration: Option<int>, now: int): (r: TaskRow)
    ensures status == "running" ==> r.startedTimestamp == Some(now) && r.completedTimestamp == row.completedTimestamp
    ensures status != "running" ==> r.completedTimestamp == Some(now) && r.startedTimestamp == row.startedTimestamp
    ensures r.status == status && r.success == success && r.errorMessage == errorMessage
    ensures r.outputFiles == OutputFilesColumn(outputFiles) && r.durationSeconds == duration
    ensures r.id == row.id && r.taskId == row.taskId && r.createdTimestamp == row.createdTimestamp
  {
    var r := row.(status := status, success := success, errorMessage := errorMessage,
                  outputFiles := OutputFilesColumn(outputFiles), durationSeconds := duration);
    if status == "running" then r.(startedTimestamp := Some(now)) else r.(completedTimestamp := Some(now))
  }

  /** A row as `update_task_status` leaves it: changed when its task id matches. */
  function TaskUpdate(row: TaskRow, taskId: string, status: string, success: Option<bool>, errorMessage: Option<string>,
                      outputFiles: seq<string>, duration: Option<int>, now: int): (r: TaskRow)
    ensures r.id == row.id && r.taskId == row.taskId
  {
    if row.taskId == taskId then UpdatedTask(row, status, success, errorMessage, outputFiles, duration, now) else row
  }

  /** Rewriting columns other than the id and `task_id` keeps the task table well ordered. */
  lemma SameKeysTasksOk(a: seq<TaskRow>, b: seq<TaskRow>, last: int)
    requires TableOk(a, last, TaskRowId, TaskOrder)
    requires |a| == |b| && forall k :: 0 <= k < |a| ==> b[k].id == a[k].id && b[k].taskId == a[k].taskId
    ensures TableOk(b, last, TaskRowId, TaskOrder)
  {
    forall i, j | 0 <= i < j < |b| ensures TaskOrder(b[i], b[j]) {
      assert TaskOrder(a[i], a[j]);
    }
  }

  /** The same for the file table and `file_id`. */
  lemma SameKeysFilesOk(a: seq<FileRow>, b: seq<FileRow>, last: int)
    requires TableOk(a, last, FileRowId, FileOrder)
    requires |a| == |b| && forall k :: 0 <= k < |a| ==> b[k].id == a[k].id && b[k].fileId == a[k].fileId
    ensures TableOk(b, last, FileRowId, FileOrder)
  {
    forall i, j | 0 <= i < j < |b| ensures FileOrder(b[i], b[j]) {
      assert FileOrder(a[i], a[j]);
    }
  }

  /** Row `k` is the first row of `rows` with that task id. */
  predicate FirstTaskRow(rows: seq<TaskRow>, taskId: string, k: int) {
    0 <= k < |rows| && rows[k].taskId == taskId &&
    forall j :: 0 <= j < k ==> rows[j].taskId != taskId
  }

  /** `SELECT started_timestamp ... WHERE task_id = ?` followed by `fetchone()`: the start
      time of the first row with that task id, if any. */
  function StartedOf(rows: seq<TaskRow>, taskId: string): (s: Option<int>)
    ensures s.Some? ==> exists k :: 0 <= k < |rows| && rows[k].taskId == taskId && rows[k].startedTimestamp == s
    ensures !HasTaskId(rows, taskId) ==> s == None
    ensures HasTaskId(rows, taskId) ==>
      exists k :: FirstTaskRow(rows, taskId, k) && s == rows[k].startedTimestamp
  {
    if |rows| == 0 then None
    else if rows[0].taskId == taskId then
      assert FirstTaskRow(rows, taskId, 0);
      rows[0].startedTimestamp
    else
      var s := StartedOf(rows[1..], taskId);
      assert forall k :: 0 <= k < |rows[1..]| ==> rows[1..][k] == rows[k + 1];
      if HasTaskId(rows, taskId) then
        TaskIdInTail(rows, taskId);
        var k' :| FirstTaskRow(rows[1..], taskId, k') && s == rows[1..][k'].startedTimestamp;
        FirstTaskRowTail(rows, taskId, k');
        s
      else s
  }

  /** A task id present in `rows` but not in its first row is present in the rest. */
  lemma TaskIdInTail(rows: seq<TaskRow>, taskId: string)
    requires |rows| > 0 && rows[0].taskId != taskId && HasTaskId(rows, taskId)
    ensures HasTaskId(rows[1..], taskId)
  {
    var k :| 0 <= k < |rows| && rows[k].taskId == taskId;
    assert rows[1..][k - 1].taskId == taskId;
  }

  /** The first row with a task id in the rest of `rows` is the first in `rows` when the
      first row has another id. */
  lemma FirstTaskRowTail(rows: seq<TaskRow>, taskId: string, k: int)
    requires |rows| > 0 && rows[0].taskId != taskId && FirstTaskRow(rows[1..], taskId, k)
    ensures FirstTaskRow(rows, taskId, k + 1)
  {
    assert forall j :: 0 < j <= k ==> rows[j] == rows[1..][j - 1];
  }

  /** A row `get_task_by_id` returns: the first row with that task id. */
  function FindTask(rows: seq<TaskRow>, taskId: string): (r: Option<TaskRow>)
    ensures r.Some? <==> HasTaskId(rows, taskId)
    ensures r.Some? ==> r.value in rows && r.value.taskId == taskId
    ensures r.Some? ==> exists k :: FirstTaskRow(rows, taskId, k) && r.value == rows[k]
  {
    if |rows| == 0 then None
    else if rows[0].taskId == taskId then
      assert FirstTaskRow(rows, taskId, 0);
      Some(rows[0])
    else
      var r := FindTask(rows[1..], taskId);
      if HasTaskId(rows, taskId) then
        TaskIdInTail(rows, taskId);
        var k' :| FirstTaskRow(rows[1..], taskId, k') && r.value == rows[1..][k'];
        FirstTaskRowTail(rows, taskId, k');
        r
      else
        assert forall k :: 0 <= k < |rows[1..]| ==> rows[1..][k] == rows[k + 1];
        r
  }


  /** A row `get_file_by_id` returns: the first row with that file id. */
  function FindFile(rows: seq<FileRow>, fileId: string): (r: Option<FileRow>)
    ensures r.Some? <==> HasFileId(rows, fileId)
    ensures r.Some? ==> r.value in rows && r.value.fileId == fileId
  {
    if |rows| == 0 then None
    else if rows[0].fileId == fileId then Some(rows[0])
    else
      var r := FindFile(rows[1..], fileId);
      assert forall k :: 0 <= k < |rows[1..]| ==> rows[1..][k] == rows[k + 1];
      assert HasFileId(rows, fileId) ==> HasFileId(rows[1..], fileId) by {
        if HasFileId(rows, fileId) {
          var k :| 0 <= k < |rows| && rows[k].fileId == fileId;
          assert rows[1..][k - 1].fileId == fileId;
        }
      }
      r
  }

  /** The rows the retention sweep keeps, table by table. A NULL timestamp compares as
      unknown in SQL, so a row without one is never deleted. */
  predicate KeepAudit(e: AuditRow, cutoff: int) {
    !(e.timestamp < cutoff)
  }

  predicate KeepOperation(o: FileOperationRow, cutoff: int) {
    !(o.operationTimestamp < cutoff)
  }

  predicate KeepTask(t: TaskRow, cutoff: int) {
    !(t.completedTimestamp.Some? && t.completedTimestamp.value < cutoff
      && (t.status == "completed" || t.status == "failed"))
  }

  predicate KeepFile(f: FileRow, cutoff: int) {
    !(f.processedTimestamp.Some? && f.processedTimestamp.value < cutoff
      && (f.status == "processed" || f.status == "failed"))
  }

  function KeepAuditAt(cutoff: int): AuditRow -> bool { (e: AuditRow) => KeepAudit(e, cutoff) }
  function KeepOperationAt(cutoff: int): FileOperationRow -> bool { (o: FileOperationRow) => KeepOperation(o, cutoff) }
  function KeepTaskAt(cutoff: int): TaskRow -> bool { (t: TaskRow) => KeepTask(t, cutoff) }
  function KeepFileAt(cutoff: int): FileRow -> bool { (f: FileRow) => KeepFile(f, cutoff) }

  /** `DELETE FROM audit_events WHERE timestamp < cutoff`: exactly the events strictly older
      than the cutoff go, in their order. */
  function SweepAudit(rows: seq<AuditRow>, cutoff: int): (r: seq<AuditRow>)
    ensures forall k :: 0 <= k < |r| ==> r[k].timestamp >= cutoff
    ensures forall k :: 0 <= k < |rows| && rows[k].timestamp >= cutoff ==> rows[k] in r
    ensures multiset(r) <= multiset(rows)
  {
    FilterMultiset(rows, KeepAuditAt(cutoff));
    Filter(rows, KeepAuditAt(cutoff))
  }

  /** `DELETE FROM file_operations WHERE operation_timestamp < cutoff`. */
  function SweepOperations(rows: seq<FileOperationRow>, cutoff: int): (r: seq<FileOperationRow>)
    ensures forall k :: 0 <= k < |r| ==> r[k].operationTimestamp >= cutoff
    ensures forall k :: 0 <= k < |rows| && rows[k].operationTimestamp >= cutoff ==> rows[k] in r
    ensures multiset(r) <= multiset(rows)
  {
    FilterMultiset(rows, KeepOperationAt(cutoff));
    Filter(rows, KeepOperationAt(cutoff))
  }

  /** The task sweep: a task goes only when it completed before the cutoff with status
      "completed" or "failed"; a task in any other status is never removed. */
  function SweepTasks(rows: seq<TaskRow>, cutoff: int): (r: seq<TaskRow>)
    ensures forall k :: 0 <= k < |r| ==> KeepTask(r[k], cutoff)
    ensures forall k :: 0 <= k < |rows| && KeepTask(rows[k], cutoff) ==> rows[k] in r
    ensures forall k :: 0 <= k < |rows| && rows[k].status != "completed" && rows[k].status != "failed" ==> rows[k] in r
    ensures multiset(r) <= multiset(rows)
  {
    FilterMultiset(rows, KeepTaskAt(cutoff));
    Filter(rows, KeepTaskAt(cutoff))
  }

  /** The file sweep: a file goes only when it was processed before the cutoff with status
      "processed" or "failed". */
  function SweepFiles(rows: seq<FileRow>, cutoff: int): (r: seq<FileRow>)
    ensures forall k :: 0 <= k < |r| ==> KeepFile(r[k], cutoff)
    ensures forall k :: 0 <= k < |rows| && KeepFile(rows[k], cutoff) ==> rows[k] in r
    ensures forall k :: 0 <= k < |rows| && rows[k].status != "processed" && rows[k].status != "failed" ==> rows[k] in r
    ensures multiset(r) <= multiset(rows)
  {
    FilterMultiset(rows, KeepFileAt(cutoff));
    Filter(rows, KeepFileAt(cutoff))
  }

  /** Sweeping a second time with the same cutoff deletes nothing more, in any table. */
  lemma SweepIdempotent(files: seq<FileRow>, tasks: seq<TaskRow>, audits: seq<AuditRow>,
                        operations: seq<FileOperationRow>, cutoff: int)
    ensures SweepFiles(SweepFiles(files, cutoff), cutoff) == SweepFiles(files, cutoff)
    ensures SweepTasks(SweepTasks(tasks, cutoff), cutoff) == SweepTasks(tasks, cutoff)
    ensures SweepAudit(SweepAudit(audits, cutoff), cutoff) == SweepAudit(audits, cutoff)
    ensures SweepOperations(SweepOperations(operations, cutoff), cutoff) == SweepOperations(operations, cutoff)
  {
    FilterIdempotent(files, KeepFileAt(cutoff));
    FilterIdempotent(tasks, KeepTaskAt(cutoff));
    FilterIdempotent(audits, KeepAuditAt(cutoff));
    FilterIdempotent(operations, KeepOperationAt(cutoff));
  }

  /** The `WHERE` of `get_user_files`: the user's rows, and only the given status when a
      non-empty one is given. */
  predicate MatchesUserFile(f: FileRow, userId: int, status: Option<string>) {
    f.userId == userId && (status == None || status == Some("") || f.status == status.value)
  }

  function MatchesAt(userId: int, status: Option<string>): FileRow -> bool {
    (f: FileRow) => MatchesUserFile(f, userId, status)
  }

  function NewestFirst(f: FileRow): int {
    -f.uploadTimestamp
  }

  /** `get_user_files`: the matching rows, newest upload first (rows uploaded at the same
      time stay in insertion order), at most `limit` of them unless the limit is negative;
      with room for all of them, every matching row is returned. */
  function UserFiles(rows: seq<FileRow>, userId: int, limit: int, status: Option<string>): (r: seq<FileRow>)
    ensures forall k :: 0 <= k < |r| ==> MatchesUserFile(r[k], userId, status) && r[k] in rows
    ensures forall i, j :: 0 <= i < j < |r| ==> r[i].uploadTimestamp >= r[j].uploadTimestamp
    ensures limit >= 0 ==> |r| <= limit
    ensures multiset(r) <= multiset(Filter(rows, MatchesAt(userId, status)))
    ensures limit < 0 || Count(rows, MatchesAt(userId, status)) <= limit ==>
      multiset(r) == multiset(Filter(rows, MatchesAt(userId, status)))
    ensures var n := Count(rows, MatchesAt(userId, status));
      limit >= 0 ==> |r| == if n < limit then n else limit
    ensures forall f | f in multiset(Filter(rows, MatchesAt(userId, status))) - multiset(r) ::
      forall k :: 0 <= k < |r| ==> f.uploadTimestamp <= r[k].uploadTimestamp
  {
    var r := Select(rows, MatchesAt(userId, status), NewestFirst, limit);
    NewestFirstOrder(r);
    NewestLeftOut(Filter(rows, MatchesAt(userId, status)), r);
    r
  }

  /** Rows left out of a newest-first selection are no newer than any row kept. */
  lemma NewestLeftOut(matching: seq<FileRow>, r: seq<FileRow>)
    requires forall f | f in multiset(matching) - multiset(r) ::
      forall k :: 0 <= k < |r| ==> NewestFirst(r[k]) <= NewestFirst(f)
    ensures forall f | f in multiset(matching) - multiset(r) ::
      forall k :: 0 <= k < |r| ==> f.uploadTimestamp <= r[k].uploadTimestamp
  {
    forall f | f in multiset(matching) - multiset(r)
      ensures forall k :: 0 <= k < |r| ==> f.uploadTimestamp <= r[k].uploadTimestamp
    {
      forall k | 0 <= k < |r| ensures f.uploadTimestamp <= r[k].uploadTimestamp {
        assert NewestFirst(r[k]) <= NewestFirst(f);
      }
    }
  }

  lemma NewestFirstOrder(r: seq<FileRow>)
    requires SortedBy(r, NewestFirst)
    ensures forall i, j :: 0 <= i < j < |r| ==> r[i].uploadTimestamp >= r[j].uploadTimestamp
  {
    forall i, j | 0 <= i < j < |r| ensures r[i].uploadTimestamp >= r[j].uploadTimestamp {
      assert NewestFirst(r[i]) <= NewestFirst(r[j]);
    }
  }

  /** The SQLite database behind `DatabaseManager`: each table's rows in id order, with the
      largest id AUTOINCREMENT has handed out for it. */
  class DatabaseManager {
    var uploadedFiles: seq<FileRow>
    var taskExecutions: seq<TaskRow>
    var auditEvents: seq<AuditRow>
    var fileOperations: seq<FileOperationRow>
    var securityEvents: seq<SecurityRow>
    var lastFileId: int
    var lastTaskId: int
    var lastAuditId: int
    var lastOperationId: int
    var lastSecurityId: int

    /** Ids increase along each table and never exceed the table's last handed-out id, and
        `file_id` and `task_id` are unique. */
    predicate Valid()
      reads this
    {
      && TableOk(uploadedFiles, lastFileId, FileRowId, FileOrder)
      && TableOk(taskExecutions, lastTaskId, TaskRowId, TaskOrder)
      && TableOk(auditEvents, lastAuditId, AuditRowId, AuditOrder)
      && TableOk(fileOperations, lastOperationId, OperationRowId, OperationOrder)
      && TableOk(securityEvents, lastSecurityId, SecurityRowId, SecurityOrder)
    }

    /** `_init_database` on a fresh database file: every table empty. */
    constructor()
      ensures Valid()
      ensures uploadedFiles == [] && taskExecutions == [] && auditEvents == []
      ensures fileOperations == [] && securityEvents == []
    {
      uploadedFiles, taskExecutions, auditEvents, fileOperations, securityEvents := [], [], [], [], [];
      lastFileId, lastTaskId, lastAuditId, lastOperationId, lastSecurityId := 0, 0, 0, 0, 0;
    }

    /** `record_file_upload`: appends the row with the next id, uploaded now, not yet
        processed, and returns the id; a `file_id` already present is a UNIQUE violation and
        nothing changes. */
    method RecordFileUpload(info: UploadedFile, now: int) returns (r: Result<int, string>)
      requires Valid()
      modifies this
      ensures Valid()
      ensures HasFileId(old(uploadedFiles), info.fileId) ==>
        r == Err("UNIQUE constraint failed: uploaded_files.file_id")
        && uploadedFiles == old(uploadedFiles) && lastFileId == old(lastFileId)
      ensures !HasFileId(old(uploadedFiles), info.fileId) ==>
        && r == Ok(old(lastFileId) + 1) && lastFileId == old(lastFileId) + 1
        && uploadedFiles == old(uploadedFiles) + [FileRow(r.value, info.fileId, info.userId, info.originalName,
             info.securePath, info.fileSize, info.mimeType, info.checksum, now, info.validationJson,
             info.metadataJson, info.status, None, None, None)]
      ensures taskExecutions == old(taskExecutions) && auditEvents == old(auditEvents)
      ensures fileOperations == old(fileOperations) && securityEvents == old(securityEvents)
      ensures lastTaskId == old(lastTaskId) && lastAuditId == old(lastAuditId)
      ensures lastOperationId == old(lastOperationId) && lastSecurityId == old(lastSecurityId)
    {
      if HasFileId(uploadedFiles, info.fileId) {
        return Err("UNIQUE constraint failed: uploaded_files.file_id");
      }
      var row := FileRow(lastFileId + 1, info.fileId, info.userId, info.originalName, info.securePath,
                         info.fileSize, info.mimeType, info.checksum, now, info.validationJson,
                         info.metadataJson, info.status, None, None, None);
      TableOkAppend(uploadedFiles, lastFileId, FileRowId, FileOrder, row);
      uploadedFiles := uploadedFiles + [row];
      lastFileId := lastFileId + 1;
      r := Ok(lastFileId);
    }

    /** `record_task_execution`: appends the row with the next id, created at the record's
        own time or now, and returns the id; a duplicate `task_id` changes nothing. */
    method RecordTaskExecution(info: TaskExecution, now: int) returns (r: Result<int, string>)
      requires Valid()
      modifies this
      ensures Valid()
      ensures HasTaskId(old(taskExecutions), info.taskId) ==>
        r == Err("UNIQUE constraint failed: task_executions.task_id")
        && taskExecutions == old(taskExecutions) && lastTaskId == old(lastTaskId)
      ensures !HasTaskId(old(taskExecutions), info.taskId) ==>
        && r == Ok(old(lastTaskId) + 1) && lastTaskId == old(lastTaskId) + 1
        && taskExecutions == old(taskExecutions) + [TaskRow(r.value, info.taskId, info.taskKind, info.userId,
             info.parametersJson, info.status, info.createdTimestamp.GetOr(now), None, None, None, None, None, None)]
      ensures uploadedFiles == old(uploadedFiles) && auditEvents == old(auditEvents)
      ensures fileOperations == old(fileOperations) && securityEvents == old(securityEvents)
      ensures lastFileId == old(lastFileId) && lastAuditId == old(lastAuditId)
      ensures lastOperationId == old(lastOperationId) && lastSecurityId == old(lastSecurityId)
    {
      if HasTaskId(taskExecutions, info.taskId) {
        return Err("UNIQUE constraint failed: task_executions.task_id");
      }
      var created := if info.createdTimestamp.Some? then info.createdTimestamp.value else now;
      var row := TaskRow(lastTaskId + 1, info.taskId, info.taskKind, info.userId, info.parametersJson,
                         info.status, created, None, None, None, None, None, None);
      TableOkAppend(taskExecutions, lastTaskId, TaskRowId, TaskOrder, row);
      taskExecutions := taskExecutions + [row];
      lastTaskId := lastTaskId + 1;
      r := Ok(lastTaskId);
    }

    /** `record_audit_event`: appends the event with the next id and returns it. The row's
        timestamp is the insertion time, not the event's own timestamp. */
    method RecordAuditEvent(event: AuditEvent, now: int) returns (id: int)
      requires Valid()
      modifies this
      ensures Valid()
      ensures id == old(lastAuditId) + 1 && lastAuditId == id
      ensures auditEvents == old(auditEvents) + [AuditRow(id, event.eventType, event.userId, event.taskId,
        event.fileId, now, event.detailsJson, event.ipAddress, event.userAgent, event.severity)]
      ensures uploadedFiles == old(uploadedFiles) && taskExecutions == old(taskExecutions)
      ensures fileOperations == old(fileOperations) && securityEvents == old(securityEvents)
      ensures lastFileId == old(lastFileId) && lastTaskId == old(lastTaskId)
      ensures lastOperationId == old(lastOperationId) && lastSecurityId == old(lastSecurityId)
    {
      id := lastAuditId + 1;
      var row := AuditRow(id, event.eventType, event.userId, event.taskId, event.fileId,
                          now, event.detailsJson, event.ipAddress, event.userAgent, event.severity);
      TableOkAppend(auditEvents, lastAuditId, AuditRowId, AuditOrder, row);
      auditEvents := auditEvents + [row];
      lastAuditId := id;
    }

    /** `record_file_operation`: appends the operation with the next id and returns it. */
    method RecordFileOperation(operationType: string, fileId: string, taskId: Option<string>,
                               sourcePath: Option<string>, targetPath: Option<string>, status: string,
                               detailsJson: Option<string>, now: int) returns (id: int)
      requires Valid()
      modifies this
      ensures Valid()
      ensures id == old(lastOperationId) + 1 && lastOperationId == id
      ensures fileOperations == old(fileOperations) + [FileOperationRow(id, operationType, fileId, taskId, now,
        sourcePath, targetPath, status, detailsJson)]
      ensures uploadedFiles == old(uploadedFiles) && taskExecutions == old(taskExecutions)
      ensures auditEvents == old(auditEvents) && securityEvents == old(securityEvents)
      ensures lastFileId == old(lastFileId) && lastTaskId == old(lastTaskId)
      ensures lastAuditId == old(lastAuditId) && lastSecurityId == old(lastSecurityId)
    {
      id := lastOperationId + 1;
      var row := FileOperationRow(id, operationType, fileId, taskId, now, sourcePath, targetPath, status, detailsJson);
      TableOkAppend(fileOperations, lastOperationId, OperationRowId, OperationOrder, row);
      fileOperations := fileOperations + [row];
      lastOperationId := id;
    }

    /** `record_security_event`: appends an unresolved event with the next id and returns it. */
    method RecordSecurityEvent(eventType: string, userId: int, severity: string, description: string,
                               detailsJson: Option<string>, ipAddress: Option<string>, now: int) returns (id: int)
      requires Valid()
      modifies this
      ensures Valid()
      ensures id == old(lastSecurityId) + 1 && lastSecurityId == id
      ensures securityEvents == old(securityEvents) + [SecurityRow(id, eventType, userId, now, severity,
        description, detailsJson, ipAddress, false, None)]
      ensures uploadedFiles == old(uploadedFiles) && taskExecutions == old(taskExecutions)
      ensures auditEvents == old(auditEvents) && fileOperations == old(fileOperations)
      ensures lastFileId == old(lastFileId) && lastTaskId == old(lastTaskId)
      ensures lastAuditId == old(lastAuditId) && lastOperationId == old(lastOperationId)
    {
      id := lastSecurityId + 1;
      var row := SecurityRow(id, eventType, userId, now, severity, description, detailsJson, ipAddress, false, None);
      TableOkAppend(securityEvents, lastSecurityId, SecurityRowId, SecurityOrder, row);
      securityEvents := securityEvents + [row];
      lastSecurityId := id;
    }

    /** The UPDATE loop of `update_file_status` over the rows of `uploaded_files`. */
    static method UpdateFileRows(rows: seq<FileRow>, fileId: string, status: string, taskId: Option<string>,
                                 errorMessage: Option<string>, now: int) returns (updated: seq<FileRow>)
      ensures |updated| == |rows|
      ensures forall k :: 0 <= k < |rows| ==>
        updated[k] == if rows[k].fileId == fileId then UpdatedFile(rows[k], status, taskId, errorMessage, now) else rows[k]
      ensures forall k :: 0 <= k < |rows| ==> updated[k].id == rows[k].id && updated[k].fileId == rows[k].fileId
    {
      updated := rows;
      var i := 0;
      while i < |rows|
        invariant 0 <= i <= |rows| && |updated| == |rows|
        invariant forall k :: 0 <= k < i ==>
          updated[k] == if rows[k].fileId == fileId then UpdatedFile(rows[k], status, taskId, errorMessage, now) else rows[k]
        invariant forall k :: i <= k < |rows| ==> updated[k] == rows[k]
      {
        if rows[i].fileId == fileId {
          updated := updated[i := UpdatedFile(rows[i], status, taskId, errorMessage, now)];
        }
        i := i + 1;
      }
    }

    /** `update_file_status`: the rows whose `file_id` matches get the new status, task id,
        error message and processed time; every other row is left as it was. */
    method UpdateFileStatus(fileId: string, status: string, taskId: Option<string>, errorMessage: Option<string>, now: int)
      requires Valid()
      modifies this
      ensures Valid()
      ensures |uploadedFiles| == |old(uploadedFiles)|
      ensures forall k :: 0 <= k < |uploadedFiles| ==>
        uploadedFiles[k] == if old(uploadedFiles)[k].fileId == fileId
                            then UpdatedFile(old(uploadedFiles)[k], status, taskId, errorMessage, now)
                            else old(uploadedFiles)[k]
      ensures taskExecutions == old(taskExecutions) && auditEvents == old(auditEvents)
      ensures fileOperations == old(fileOperations) && securityEvents == old(securityEvents)
      ensures lastFileId == old(lastFileId) && lastTaskId == old(lastTaskId) && lastAuditId == old(lastAuditId)
      ensures lastOperationId == old(lastOperationId) && lastSecurityId == old(lastSecurityId)
    {
      var rows := UpdateFileRows(uploadedFiles, fileId, status, taskId, errorMessage, now);
      SameKeysFilesOk(old(uploadedFiles), rows, lastFileId);
      uploadedFiles := rows;
    }

    /** The UPDATE loop of `update_task_status` over the rows of `task_executions`. */
    static method UpdateTaskRows(rows: seq<TaskRow>, taskId: string, status: string, success: Option<bool>,
                                 errorMessage: Option<string>, outputFiles: seq<string>, duration: Option<int>, now: int)
      returns (updated: seq<TaskRow>)
      ensures |updated| == |rows|
      ensures forall k :: 0 <= k < |rows| ==>
        updated[k] == TaskUpdate(rows[k], taskId, status, success, errorMessage, outputFiles, duration, now)
      ensures forall k :: 0 <= k < |rows| && rows[k].taskId != taskId ==> updated[k] == rows[k]
    {
      updated := rows;
      var i := 0;
      while i < |rows|
        invariant 0 <= i <= |rows| && |updated| == |rows|
        invariant forall k :: 0 <= k < i ==>
          updated[k] == TaskUpdate(rows[k], taskId, status, success, errorMessage, outputFiles, duration, now)
        invariant forall k :: i <= k < |rows| ==> updated[k] == rows[k]
      {
        updated := updated[i := TaskUpdate(rows[i], taskId, status, success, errorMessage, outputFiles, duration, now)];
        i := i + 1;
      }
    }

    /** `update_task_status`: the duration is read from the matching row's start time, then
        every row whose `task_id` matches gets the `UpdatedTask` change; other rows are left
        as they were. */
    method UpdateTaskStatus(taskId: string, status: string, success: Option<bool>, errorMessage: Option<string>,
                            outputFiles: seq<string>, now: int)
      requires Valid()
      modifies this
      ensures Valid()
      ensures |taskExecutions| == |old(taskExecutions)|
      ensures var duration := Duration(status, StartedOf(old(taskExecutions), taskId), now);
        forall k :: 0 <= k < |taskExecutions| ==>
          taskExecutions[k] == TaskUpdate(old(taskExecutions)[k], taskId, status, success, errorMessage, outputFiles, duration, now)
      ensures uploadedFiles == old(uploadedFiles) && auditEvents == old(auditEvents)
      ensures fileOperations == old(fileOperations) && securityEvents == old(securityEvents)
      ensures lastFileId == old(lastFileId) && lastTaskId == old(lastTaskId) && lastAuditId == old(lastAuditId)
      ensures lastOperationId == old(lastOperationId) && lastSecurityId == old(lastSecurityId)
    {
      var duration := Duration(status, StartedOf(taskExecutions, taskId), now);
      var rows := UpdateTaskRows(taskExecutions, taskId, status, success, errorMessage, outputFiles, duration, now);
      SameKeysTasksOk(old(taskExecutions), rows, lastTaskId);
      taskExecutions := rows;
    }

    /** `get_user_files`. */
    method GetUserFiles(userId: int, limit: int, status: Option<string>) returns (r: seq<FileRow>)
      ensures r == UserFiles(uploadedFiles, userId, limit, status)
      ensures forall k :: 0 <= k < |r| ==> r[k] in uploadedFiles && r[k].userId == userId
    {
      r := UserFiles(uploadedFiles, userId, limit, status);
      forall k | 0 <= k < |r| ensures r[k] in uploadedFiles {
        assert r[k] in multiset(r);
      }
    }

    /** `get_task_by_id`: the row with that task id, or none. */
    method GetTaskById(taskId: string) returns (r: Option<TaskRow>)
      ensures r.Some? <==> HasTaskId(taskExecutions, taskId)
      ensures r.Some? ==> r.value in taskExecutions && r.value.taskId == taskId
    {
      r := FindTask(taskExecutions, taskId);
    }

    /** `get_file_by_id`: the row with that file id, or none. */
    method GetFileById(fileId: string) returns (r: Option<FileRow>)
      ensures r.Some? <==> HasFileId(uploadedFiles, fileId)
      ensures r.Some? ==> r.value in uploadedFiles && r.value.fileId == fileId
    {
      r := FindFile(uploadedFiles, fileId);
    }

    /** `DELETE FROM audit_events WHERE timestamp < cutoff`. */
    method DeleteOldAuditEvents(cutoff: int)
      requires Valid()
      modifies this
      ensures Valid()
      ensures auditEvents == SweepAudit(old(auditEvents), cutoff)
      ensures uploadedFiles == old(uploadedFiles) && taskExecutions == old(taskExecutions)
      ensures fileOperations == old(fileOperations) && securityEvents == old(securityEvents)
      ensures lastFileId == old(lastFileId) && lastTaskId == old(lastTaskId) && lastAuditId == old(lastAuditId)
      ensures lastOperationId == old(lastOperationId) && lastSecurityId == old(lastSecurityId)
    {
      TableOkFilter(auditEvents, lastAuditId, AuditRowId, AuditOrder, KeepAuditAt(cutoff));
      auditEvents := SweepAudit(auditEvents, cutoff);
    }

    /** `DELETE FROM file_operations WHERE operation_timestamp < cutoff`. */
    method DeleteOldFileOperations(cutoff: int)
      requires Valid()
      modifies this
      ensures Valid()
      ensures fileOperations == SweepOperations(old(fileOperations), cutoff)
      ensures uploadedFiles == old(uploadedFiles) && taskExecutions == old(taskExecutions)
      ensures auditEvents == old(auditEvents) && securityEvents == old(securityEvents)
      ensures lastFileId == old(lastFileId) && lastTaskId == old(lastTaskId) && lastAuditId == old(lastAuditId)
      ensures lastOperationId == old(lastOperationId) && lastSecurityId == old(lastSecurityId)
    {
      TableOkFilter(fileOperations, lastOperationId, OperationRowId, OperationOrder, KeepOperationAt(cutoff));
      fileOperations := SweepOperations(fileOperations, cutoff);
    }

    /** The task DELETE of `cleanup_old_records`. */
    method DeleteOldTasks(cutoff: int)
      requires Valid()
      modifies this
      ensures Valid()
      ensures taskExecutions == SweepTasks(old(taskExecutions), cutoff)
      ensures uploadedFiles == old(uploadedFiles) && fileOperations == old(fileOperations)
      ensures auditEvents == old(auditEvents) && securityEvents == old(securityEvents)
      ensures lastFileId == old(lastFileId) && lastTaskId == old(lastTaskId) && lastAuditId == old(lastAuditId)
      ensures lastOperationId == old(lastOperationId) && lastSecurityId == old(lastSecurityId)
    {
      TableOkFilter(taskExecutions, lastTaskId, TaskRowId, TaskOrder, KeepTaskAt(cutoff));
      taskExecutions := SweepTasks(taskExecutions, cutoff);
    }

    /** The uploaded-file DELETE of `cleanup_old_records`. */
    method DeleteOldFiles(cutoff: int)
      requires Valid()
      modifies this
      ensures Valid()
      ensures uploadedFiles == SweepFiles(old(uploadedFiles), cutoff)
      ensures taskExecutions == old(taskExecutions) && fileOperations == old(fileOperations)
      ensures auditEvents == old(auditEvents) && securityEvents == old(securityEvents)
      ensures lastFileId == old(lastFileId) && lastTaskId == old(lastTaskId) && lastAuditId == old(lastAuditId)
      ensures lastOperationId == old(lastOperationId) && lastSecurityId == old(lastSecurityId)
    {
      TableOkFilter(uploadedFiles, lastFileId, FileRowId, FileOrder, KeepFileAt(cutoff));
      uploadedFiles := SweepFiles(uploadedFiles, cutoff);
    }

    /** `cleanup_old_records(days)`: the four DELETE statements with cutoff now - days. */
    method CleanupOldRecords(days: int, now: int)
      requires Valid()
      modifies this
      ensures Valid()
      ensures auditEvents == SweepAudit(old(auditEvents), Cutoff(days, now))
      ensures fileOperations == SweepOperations(old(fileOperations), Cutoff(days, now))
      ensures taskExecutions == SweepTasks(old(taskExecutions), Cutoff(days, now))
      ensures uploadedFiles == SweepFiles(old(uploadedFiles), Cutoff(days, now))
      ensures securityEvents == old(securityEvents)
      ensures lastFileId == old(lastFileId) && lastTaskId == old(lastTaskId) && lastAuditId == old(lastAuditId)
      ensures lastOperationId == old(lastOperationId) && lastSecurityId == old(lastSecurityId)
    {
      var cutoff := Cutoff(days, now);
      DeleteOldAuditEvents(cutoff);
      DeleteOldFileOperations(cutoff);
      DeleteOldTasks(cutoff);
      DeleteOldFiles(cutoff);
    }
  }
}
