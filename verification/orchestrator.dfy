/** Model of orchestrator/app.py: the in-memory task table of the HTTP orchestrator and the
    lifecycle every task goes through, SUBMITTED -> PREPARING -> RUNNING -> SUCCEEDED or
    FAILED, with CANCELLED reachable from the first three.

    The external tools are not run. Their exit code, whether their output file exists, the
    entries of the output directory in the order the filesystem enumerates them, the clock, the date and the random part of the
    task id are all parameters. The filesystem is reduced to the set of paths known to exist
    and the last status.json written for each task. */
module TaskOrchestrator {
  import opened Wrappers
  import opened Strings
  import opened Seqs

  datatype TaskState = Submitted | Preparing | Running | Succeeded | Failed | Cancelled

  /** One file reported for a finished task. */
  datatype Artifact = Artifact(name: string, path: string, sizeBytes: int, sha256: Option<string>)

  datatype Task = Task(
    id: string,
    date: string,
    kind: string,
    state: TaskState,
    createdAt: int,
    startedAt: Option<int>,
    finishedAt: Option<int>,
    params: map<string, string>,
    artifacts: seq<Artifact>,
    logs: map<string, string>,
    error: Option<string>)

  /** An entry of the recursive `glob` of a task's output directory,
      with what `is_file`, `stat` and the digest report for it. */
  datatype OutputEntry = OutputEntry(path: string, name: string, isFile: bool, size: int, sha256: Option<string>)

  /** An HTTP error response: status code and detail text. */
  datatype HttpError = HttpError(status: int, detail: string)

  const TasksRoot := "/workspace/tasks"
  const SampleApk := "/workspace/APKS/armeabi-v7a/AdobeReader.apk"
  const NotFound := HttpError(404, "Not found")
  const UnsupportedKind := HttpError(400, "Unsupported kind")

  predicate SupportedKind(kind: string) {
    kind == "payload" || kind == "listener" || kind == "android"
  }

  predicate IsHexDigit(c: char) {
    ('0' <= c <= '9') || ('a' <= c <= 'f')
  }

  /** The first eight characters of `uuid4().hex`. */
  predicate IsHex8(s: string) {
    |s| == 8 && forall k :: 0 <= k < 8 ==> IsHexDigit(s[k])
  }

  function TaskId(hex: string, kind: string): string {
    hex + "-" + kind
  }

  /** `TASKS_ROOT / date / task_id`. */
  function TaskBase(date: string, id: string): string {
    TasksRoot + "/" + date + "/" + id
  }

  function StatusPath(date: string, id: string): string {
    TaskBase(date, id) + "/logs/status.json"
  }

  function OriginalApk(date: string, id: string): string {
    TaskBase(date, id) + "/input/original.apk"
  }

  /** The four directories `_prepare_task` creates under a task's base directory. */
  function TaskDirs(base: string): set<string> {
    {base + "/input", base + "/temp", base + "/output", base + "/logs"}
  }

  /** `Path(p).exists()`, where the empty path means the current directory, which exists. */
  predicate PathExists(p: string, fs: set<string>) {
    p == "" || p in fs
  }

  /** `params.get(key, "")`. */
  function Param(params: map<string, string>, key: string): string {
    if key in params then params[key] else ""
  }

  /** A task that is still waiting or working; only these can be cancelled. */
  predicate IsActive(t: Task) {
    t.state == Submitted || t.state == Preparing || t.state == Running
  }

  /** What the lifecycle guarantees of every stored task: a submitted task has not started,
      finished or produced anything; a running task has a start time; a task in a final
      state has a finish time. */
  predicate WellFormed(t: Task) {
    && (t.state == Submitted ==> t.startedAt == None && t.finishedAt == None && t.artifacts == [])
    && (t.state == Running ==> t.startedAt.Some?)
    && (!IsActive(t) ==> t.finishedAt.Some?)
  }

  /** The task as `_prepare_task` creates it. */
  function NewTask(id: string, date: string, kind: string, params: map<string, string>, now: int): (t: Task)
    ensures t.state == Submitted && WellFormed(t)
    ensures t.id == id && t.date == date && t.kind == kind && t.params == params && t.createdAt == now
    ensures t.logs == map[] && t.error == None
  {
    Task(id, date, kind, Submitted, now, None, None, params, [], map[], None)
  }

  /** The `cancel_task` transition: an active task becomes CANCELLED with its finish time
      set; a task in any other state is returned as it is. */
  function Cancel(t: Task, now: int): (r: Task)
    ensures IsActive(t) ==> r.state == Cancelled && r.finishedAt == Some(now)
    ensures IsActive(t) ==> r == t.(state := Cancelled, finishedAt := Some(now))
    ensures !IsActive(t) ==> r == t
    ensures !IsActive(r)
    ensures WellFormed(t) ==> WellFormed(r)
  {
    if IsActive(t) then t.(state := Cancelled, finishedAt := Some(now)) else t
  }

  /** Cancelling twice is cancelling once: the second call finds a task that is no longer active. */
  lemma CancelIdempotent(t: Task, now: int, later: int)
    ensures Cancel(Cancel(t, now), later) == Cancel(t, now)
  {
    assert !IsActive(Cancel(t, now));
  }

  /** The artifact reported for an output entry. */
  function ToArtifact(e: OutputEntry): Artifact {
    Artifact(e.name, e.path, e.size, e.sha256)
  }

  predicate IsRegularFile(e: OutputEntry) {
    e.isFile
  }

  /** The artifacts of a listing: one per regular file, in listing order. */
  function ArtifactsOf(listing: seq<OutputEntry>): (r: seq<Artifact>)
    ensures |r| == Count(listing, IsRegularFile)
  {
    if |listing| == 0 then []
    else
      var init := listing[..|listing| - 1];
      var last := listing[|listing| - 1];
      CountSnoc(init, last, IsRegularFile);
      assert listing == init + [last];
      ArtifactsOf(init) + (if IsRegularFile(last) then [ToArtifact(last)] else [])
  }

  lemma {:induction false} CountSnoc<T>(s: seq<T>, x: T, p: T -> bool)
    ensures Count(s + [x], p) == Count(s, p) + (if p(x) then 1 else 0)
  {
    if |s| == 0 {
      assert (s + [x])[1..] == [];
    } else {
      assert (s + [x])[1..] == s[1..] + [x];
      CountSnoc(s[1..], x, p);
    }
  }

  /** One more entry of the listing adds its artifact when it is a regular file. */
  lemma ArtifactsOfPrefix(listing: seq<OutputEntry>, i: nat)
    requires i < |listing|
    ensures ArtifactsOf(listing[..i + 1])
         == ArtifactsOf(listing[..i]) + if IsRegularFile(listing[i]) then [ToArtifact(listing[i])] else []
  {
    assert listing[..i + 1][..i] == listing[..i];
  }

  function MapArtifacts(entries: seq<OutputEntry>): (r: seq<Artifact>)
    ensures |r| == |entries|
    ensures forall k :: 0 <= k < |r| ==> r[k] == ToArtifact(entries[k])
  {
    seq(|entries|, k requires 0 <= k < |entries| => ToArtifact(entries[k]))
  }

  /** The artifacts are exactly the regular files of the listing, in listing order, each
      described by its own name, path, size and digest; directories contribute nothing. */
  lemma {:induction false} ArtifactsAreTheRegularFiles(listing: seq<OutputEntry>)
    ensures ArtifactsOf(listing) == MapArtifacts(Filter(listing, IsRegularFile))
  {
    if |listing| > 0 {
      ArtifactsAreTheRegularFiles(listing[..|listing| - 1]);
      RegularFilesSnoc(listing);
    }
  }

  /** One more entry in the listing adds its artifact iff it is a regular file. */
  lemma RegularFilesSnoc(listing: seq<OutputEntry>)
    requires |listing| > 0
    requires var init := listing[..|listing| - 1];
      ArtifactsOf(init) == MapArtifacts(Filter(init, IsRegularFile))
    ensures ArtifactsOf(listing) == MapArtifacts(Filter(listing, IsRegularFile))
  {
    var init := listing[..|listing| - 1];
    var last := listing[|listing| - 1];
    var kept := Filter(init, IsRegularFile);
    var extra := if IsRegularFile(last) then [last] else [];
    FilterLast(listing, IsRegularFile);
    MapArtifactsAppend(kept, extra);
    assert MapArtifacts(extra) == if IsRegularFile(last) then [ToArtifact(last)] else [];
  }

  lemma MapArtifactsAppend(a: seq<OutputEntry>, b: seq<OutputEntry>)
    ensures MapArtifacts(a + b) == MapArtifacts(a) + MapArtifacts(b)
  {
    assert forall k :: 0 <= k < |b| ==> (a + b)[|a| + k] == b[k];
  }

  /** Python's `<` on paths (`PurePosixPath`): the `/`-separated parts are compared in turn
      as strings, so `a/b` comes before `a-b` although `-` comes before `/`. */
  predicate PathBefore(a: string, b: string) {
    LexLess(Split(a, '/'), Split(b, '/'), StrLess)
  }

  /** Paths are totally ordered: distinct paths have distinct parts. */
  lemma PathOrder()
    ensures StrictTotalOrder(PathBefore)
  {
    StrOrder();
    LexOrder(StrLess);
    forall a: string, b: string | Split(a, '/') == Split(b, '/') ensures a == b {
      JoinSplit(a, '/');
      JoinSplit(b, '/');
    }
  }

  /** Path order is not string order. */
  lemma PathOrderIsNotStringOrder()
    ensures PathBefore("a/b", "a-b") && StrLess("a-b", "a/b")
  {
    assert Split("", '/') == [""];
    SplitCons('b', "", '/');
    assert ['b'] + "" == "b" && [""][1..] == [];
    assert Split("b", '/') == ["b"];
    SplitCons('/', "b", '/');
    assert ['/'] + "b" == "/b";
    assert Split("/b", '/') == ["", "b"];
    SplitCons('a', "/b", '/');
    assert ['a'] + "/b" == "a/b" && ['a'] + "" == "a" && ["", "b"][1..] == ["b"];
    assert Split("a/b", '/') == ["a", "b"];
    SplitCons('-', "b", '/');
    assert ['-'] + "b" == "-b";
    assert Split("-b", '/') == ["-b"];
    SplitCons('a', "-b", '/');
    assert ['a'] + "-b" == "a-b" && ["-b"][1..] == [];
    assert Split("a-b", '/') == ["a-b"];
    assert StrLess("a", "a-b") by {
      assert "a"[1..] == "" && "a-b"[1..] == "-b";
      assert LexLess("", "-b", CharBefore);
    }
    assert StrLess("a-b", "a/b") by {
      assert LexLess("-b", "/b", CharBefore);
    }
  }

  function EntryPath(e: OutputEntry): string {
    e.path
  }

  /** `sorted(...)` of the recursive `glob`: the entries in ascending path order. */
  function ByPath(found: seq<OutputEntry>): (r: seq<OutputEntry>)
    ensures multiset(r) == multiset(found)
    ensures forall i, j :: 0 <= i < j < |r| ==> !PathBefore(r[j].path, r[i].path)
  {
    PathOrder();
    SortOn(found, EntryPath, PathBefore)
  }

  /** The artifacts `_finalize_task` collects from the entries of the output directory. */
  function CollectedArtifacts(found: seq<OutputEntry>): (r: seq<Artifact>)
    ensures |r| == Count(ByPath(found), IsRegularFile)
  {
    ArtifactsOf(ByPath(found))
  }

  /** The collected artifacts are in ascending path order. */
  lemma CollectedArtifactsSortedByPath(found: seq<OutputEntry>)
    ensures var r := CollectedArtifacts(found);
      forall i, j :: 0 <= i < j < |r| ==> !PathBefore(r[j].path, r[i].path)
  {
    var sorted := ByPath(found);
    var files := Filter(sorted, IsRegularFile);
    var r := CollectedArtifacts(found);
    ArtifactsAreTheRegularFiles(sorted);
    assert Pairwise(sorted, NotAfter);
    FilterPairwise(sorted, IsRegularFile, NotAfter);
    forall i, j | 0 <= i < j < |r| ensures !PathBefore(r[j].path, r[i].path) {
      assert NotAfter(files[i], files[j]);
    }
  }

  /** Every regular file found has its artifact collected. */
  lemma CollectedArtifactsCoverFiles(found: seq<OutputEntry>)
    ensures forall e :: e in found && e.isFile ==> ToArtifact(e) in CollectedArtifacts(found)
  {
    forall e | e in found && e.isFile ensures ToArtifact(e) in CollectedArtifacts(found) {
      FileCollected(found, e);
    }
  }

  lemma FileCollected(found: seq<OutputEntry>, e: OutputEntry)
    requires e in found && e.isFile
    ensures ToArtifact(e) in CollectedArtifacts(found)
  {
    var sorted := ByPath(found);
    var files := Filter(sorted, IsRegularFile);
    ArtifactsAreTheRegularFiles(sorted);
    assert e in multiset(sorted);
    var j :| 0 <= j < |sorted| && sorted[j] == e;
    assert e in files;
    var k :| 0 <= k < |files| && files[k] == e;
    assert MapArtifacts(files)[k] == ToArtifact(e);
  }

  /** Every collected artifact describes a regular file found. */
  lemma CollectedArtifactsAreFiles(found: seq<OutputEntry>)
    ensures forall a :: a in CollectedArtifacts(found) ==>
      exists e :: e in found && e.isFile && a == ToArtifact(e)
  {
    var sorted := ByPath(found);
    var files := Filter(sorted, IsRegularFile);
    var r := CollectedArtifacts(found);
    ArtifactsAreTheRegularFiles(sorted);
    forall a | a in r ensures exists e :: e in found && e.isFile && a == ToArtifact(e) {
      var k :| 0 <= k < |r| && r[k] == a;
      assert files[k] in sorted;
      assert files[k] in multiset(found);
    }
  }

  predicate NotAfter(x: OutputEntry, y: OutputEntry) {
    !PathBefore(y.path, x.path)
  }

  /** The `_finalize_task` transition as written: the state becomes SUCCEEDED or FAILED
      whatever it was before, CANCELLED included. */
  function Finalize(t: Task, succeeded: bool, err: Option<string>, now: int, artifacts: seq<Artifact>): (r: Task)
    ensures r.state == (if succeeded then Succeeded else Failed)
    ensures r.finishedAt == Some(now) && r.error == err && r.artifacts == artifacts
    ensures r.id == t.id && r.date == t.date && r.kind == t.kind && r.createdAt == t.createdAt
    ensures r.startedAt == t.startedAt && r.params == t.params && r.logs == t.logs
    ensures WellFormed(r)
  {
    t.(state := if succeeded then Succeeded else Failed, finishedAt := Some(now), error := err, artifacts := artifacts)
  }

  /** A cancelled task that is finalised afterwards leaves CANCELLED: cancellation is not
      terminal in the source, since `_finalize_task` does not look at the current state. */
  lemma FinalizeRevivesCancelledTask(t: Task, now: int, later: int, artifacts: seq<Artifact>)
    requires IsActive(t)
    ensures Cancel(t, now).state == Cancelled
    ensures Finalize(Cancel(t, now), true, None, later, artifacts).state == Succeeded
  {
  }

  /** A finalisation that respects cancellation: a CANCELLED task keeps its state, its finish
      time and its (empty) error; every other task is finalised as `_finalize_task` does. */
  function FinalizeUnlessCancelled(t: Task, succeeded: bool, err: Option<string>, now: int, artifacts: seq<Artifact>): (r: Task)
    ensures t.state == Cancelled ==> r == t
    ensures t.state != Cancelled ==> r == Finalize(t, succeeded, err, now, artifacts)
  {
    if t.state == Cancelled then t else Finalize(t, succeeded, err, now, artifacts)
  }

  /** The three steps a runner applies to its task. */
  datatype RunnerStep =
    | BeginPrepare
    | BeginRun(now: int, logKey: string, logPath: string)
    | Finish(succeeded: bool, err: Option<string>, now: int, artifacts: seq<Artifact>)

  /** A runner step as the source applies it: unconditionally. */
  function ApplyStep(t: Task, step: RunnerStep): Task {
    match step
    case BeginPrepare => t.(state := Preparing)
    case BeginRun(now, key, path) => t.(state := Running, startedAt := Some(now), logs := t.logs[key := path])
    case Finish(ok, err, now, arts) => Finalize(t, ok, err, now, arts)
  }

  /** A runner step that leaves a cancelled task alone. */
  function ApplyStepUnlessCancelled(t: Task, step: RunnerStep): (r: Task)
    ensures step.Finish? ==> r == FinalizeUnlessCancelled(t, step.succeeded, step.err, step.now, step.artifacts)
  {
    if t.state == Cancelled then t else ApplyStep(t, step)
  }

  function ApplySteps(t: Task, steps: seq<RunnerStep>): Task
    decreases |steps|
  {
    if |steps| == 0 then t else ApplySteps(ApplyStep(t, steps[0]), steps[1..])
  }

  function ApplyStepsUnlessCancelled(t: Task, steps: seq<RunnerStep>): Task
    decreases |steps|
  {
    if |steps| == 0 then t else ApplyStepsUnlessCancelled(ApplyStepUnlessCancelled(t, steps[0]), steps[1..])
  }

  /** As written, a task cancelled before its runner starts still runs to SUCCEEDED. */
  lemma CancelledTaskRunsToCompletion(t: Task, now: int, later: int)
    requires IsActive(t)
    ensures ApplySteps(Cancel(t, now), [BeginPrepare, BeginRun(later, "build", "build.log"), Finish(true, None, later, [])]).state
         == Succeeded
  {
    var steps := [BeginPrepare, BeginRun(later, "build", "build.log"), Finish(true, None, later, [])];
    var t0 := Cancel(t, now);
    var t1 := ApplyStep(t0, steps[0]);
    var t2 := ApplyStep(t1, steps[1]);
    var t3 := ApplyStep(t2, steps[2]);
    assert steps[1..][1..][1..] == [];
    assert ApplySteps(t2, steps[1..][1..]) == ApplySteps(t3, []);
    assert ApplySteps(t1, steps[1..]) == ApplySteps(t2, steps[1..][1..]);
    assert t3.state == Succeeded;
  }

  /** With the guarded steps, cancellation is terminal: no sequence of runner steps changes
      a cancelled task. */
  lemma {:induction false} CancellationIsTerminal(t: Task, steps: seq<RunnerStep>)
    requires t.state == Cancelled
    ensures ApplyStepsUnlessCancelled(t, steps) == t
  {
    if |steps| > 0 {
      CancellationIsTerminal(t, steps[1..]);
    }
  }

  /** Success and error text of the payload runner; the listener runner is the same with
      its own tool name. */
  function ToolOutcome(tool: string, rc: int): (r: (bool, Option<string>))
    ensures r.0 <==> rc == 0
    ensures r.1 == None <==> rc == 0
    ensures rc != 0 ==> r.1 == Some(tool + " rc=" + IntToString(rc))
  {
    (rc == 0, if rc == 0 then None else Some(tool + " rc=" + IntToString(rc)))
  }

  /** Success and error text of the android runner: it succeeds when the tool exits with 0
      or the rebuilt apk exists, but reports no error only when the apk exists. */
  function AndroidOutcome(rc: int, outputExists: bool): (r: (bool, Option<string>))
    ensures r.0 <==> rc == 0 || outputExists
    ensures r.1 == None <==> outputExists
    ensures !outputExists ==> r.1 == Some("backdoor_apk rc=" + IntToString(rc))
  {
    (rc == 0 || outputExists, if outputExists then None else Some("backdoor_apk rc=" + IntToString(rc)))
  }

  /** An exit code of 0 with no rebuilt apk gives SUCCEEDED together with an error text. */
  lemma AndroidSuccessWithError(t: Task, now: int, artifacts: seq<Artifact>)
    ensures var outcome := AndroidOutcome(0, false);
      var r := Finalize(t, outcome.0, outcome.1, now, artifacts);
      r.state == Succeeded && r.error == Some("backdoor_apk rc=0")
  {
    assert DigitChar(0) == '0';
    assert IntToString(0) == "0";
    assert "backdoor_apk rc=" + "0" == "backdoor_apk rc=0";
  }

  /** How the android runner obtains `input/original.apk`. */
  datatype InputOutcome =
    | CopiedFrom(source: string)   // shutil.copy2 from this path
    | SameFileError                // shutil.copy2 with source and destination the same file
    | MissingInput                 // neither the given apk nor the sample exists

  /** Lines 184-191 of the android runner as written: copy the given apk if it is non-empty
      and exists, else the sample if it exists; `shutil.copy2` raises when the source is the
      destination itself. */
  function AndroidInput(apkPath: string, dst: string, fs: set<string>): (r: InputOutcome)
    ensures r.CopiedFrom? ==> PathExists(r.source, fs) && r.source != dst
    ensures r == MissingInput <==> !(apkPath != "" && PathExists(apkPath, fs)) && SampleApk !in fs
    ensures apkPath != "" && PathExists(apkPath, fs) ==>
      r == if apkPath == dst then SameFileError else CopiedFrom(apkPath)
    ensures !(apkPath != "" && PathExists(apkPath, fs)) && SampleApk in fs ==>
      r == if SampleApk == dst then SameFileError else CopiedFrom(SampleApk)
  {
    var source := if apkPath != "" && PathExists(apkPath, fs) then apkPath else SampleApk;
    if !(apkPath != "" && PathExists(apkPath, fs)) && SampleApk !in fs then MissingInput
    else if source == dst then SameFileError
    else CopiedFrom(source)
  }

  /** The same step, taking a source that already is the destination as already copied. */
  function AndroidInputFixed(apkPath: string, dst: string, fs: set<string>): (r: InputOutcome)
    ensures r != SameFileError
    ensures r.CopiedFrom? ==> PathExists(r.source, fs)
    ensures r == MissingInput <==> !(apkPath != "" && PathExists(apkPath, fs)) && SampleApk !in fs
    ensures apkPath != "" && PathExists(apkPath, fs) ==> r == CopiedFrom(apkPath)
    ensures !(apkPath != "" && PathExists(apkPath, fs)) && SampleApk in fs ==> r == CopiedFrom(SampleApk)
  {
    if apkPath != "" && PathExists(apkPath, fs) then CopiedFrom(apkPath)
    else if SampleApk in fs then CopiedFrom(SampleApk)
    else MissingInput
  }

  /** `create_task`'s android seeding: when `apk_path` is given but does not exist and the
      sample does, the sample is copied to `input/original.apk` and `apk_path` is pointed at it. */
  function SeedAndroid(params: map<string, string>, dst: string, fs: set<string>): (r: (map<string, string>, set<string>))
    ensures !PathExists(Param(params, "apk_path"), fs) && SampleApk in fs ==>
      r == (params["apk_path" := dst], fs + {dst})
    ensures !(!PathExists(Param(params, "apk_path"), fs) && SampleApk in fs) ==> r == (params, fs)
  {
    if !PathExists(Param(params, "apk_path"), fs) && SampleApk in fs then (params["apk_path" := dst], fs + {dst})
    else (params, fs)
  }

  /** Every android task that `create_task` seeded makes its runner call `shutil.copy2` with
      the same source and destination, so that runner raises and the task stays PREPARING. */
  lemma SeededAndroidTaskCrashes(params: map<string, string>, dst: string, fs: set<string>)
    requires !PathExists(Param(params, "apk_path"), fs) && SampleApk in fs
    requires dst != ""
    ensures var (params', fs') := SeedAndroid(params, dst, fs);
      AndroidInput(Param(params', "apk_path"), dst, fs') == SameFileError
  {
  }

  /** With the fixed input step, a seeded android task goes on to run with its seeded apk. */
  lemma SeededAndroidTaskRunsWhenFixed(params: map<string, string>, dst: string, fs: set<string>)
    requires !PathExists(Param(params, "apk_path"), fs) && SampleApk in fs
    requires dst != ""
    ensures var (params', fs') := SeedAndroid(params, dst, fs);
      AndroidInputFixed(Param(params', "apk_path"), dst, fs') == CopiedFrom(dst)
  {
  }

  /** The orchestrator's module-level state (`tasks`, `locks`) together with the parts of the
      filesystem the lifecycle reads and writes. */
  class Orchestrator {
    var tasks: map<string, Task>
    var locks: set<string>
    /** Paths known to exist. */
    var fs: set<string>
    /** The task last written to each status.json path. */
    var statusFiles: map<string, Task>

    /** Every task is stored under its own id, has a lock, and is well formed. */
    predicate Valid()
      reads this
    {
      forall id :: id in tasks ==> tasks[id].id == id && id in locks && WellFormed(tasks[id])
    }

    constructor(existing: set<string>)
      ensures Valid()
      ensures tasks == map[] && locks == {} && fs == existing && statusFiles == map[]
    {
      tasks := map[];
      locks := {};
      fs := existing;
      statusFiles := map[];
    }

    /** `_prepare_task`: stores a new SUBMITTED task under id "<hex>-<kind>" (replacing any
        task with that id), gives it a lock and creates its four working directories. */
    method PrepareTask(kind: string, params: map<string, string>, date: string, hex: string, now: int)
      returns (t: Task, base: string)
      requires Valid()
      requires IsHex8(hex)
      modifies this
      ensures Valid()
      ensures t == NewTask(TaskId(hex, kind), date, kind, params, now)
      ensures base == TaskBase(date, t.id)
      ensures tasks == old(tasks)[t.id := t]
      ensures locks == old(locks) + {t.id}
      ensures fs == old(fs) + TaskDirs(base)
      ensures statusFiles == old(statusFiles)
    {
      var id := TaskId(hex, kind);
      base := TaskBase(date, id);
      fs := fs + TaskDirs(base);
      t := NewTask(id, date, kind, params, now);
      tasks := tasks[id := t];
      locks := locks + {id};
    }

    /** `create_task`: rejects an unsupported kind with 400 and changes nothing; otherwise
        prepares the task, seeds an android task's input apk, and returns the stored task. */
    method CreateTask(kind: string, params: map<string, string>, date: string, hex: string, now: int)
      returns (r: Result<Task, HttpError>)
      requires Valid()
      requires IsHex8(hex)
      modifies this
      ensures Valid()
      ensures !SupportedKind(kind) ==>
        r == Err(UnsupportedKind) && tasks == old(tasks) && locks == old(locks)
        && fs == old(fs) && statusFiles == old(statusFiles)
      ensures SupportedKind(kind) ==>
        var id := TaskId(hex, kind);
        var fs1 := old(fs) + TaskDirs(TaskBase(date, id));
        var seeded := if kind == "android" then SeedAndroid(params, OriginalApk(date, id), fs1) else (params, fs1);
        && r == Ok(NewTask(id, date, kind, seeded.0, now))
        && tasks == old(tasks)[id := r.value]
        && locks == old(locks) + {id}
        && fs == seeded.1
        && statusFiles == old(statusFiles)
    {
      if !SupportedKind(kind) {
        return Err(UnsupportedKind);
      }
      var t, base := PrepareTask(kind, params, date, hex, now);
      if kind == "android" {
        t := SeedAndroidTask(t, base);
      }
      return Ok(t);
    }

    /** The android branch of `create_task`: when the task has no readable apk and the
        sample apk exists, the sample is copied to the task's input and becomes its
        `apk_path`. */
    method SeedAndroidTask(t: Task, base: string) returns (t': Task)
      requires Valid() && t.id in tasks && tasks[t.id] == t
      requires base == TaskBase(t.date, t.id)
      modifies this
      ensures Valid()
      ensures var seeded := SeedAndroid(t.params, OriginalApk(t.date, t.id), old(fs));
        && t' == t.(params := seeded.0)
        && tasks == old(tasks)[t.id := t'] && fs == seeded.1
        && locks == old(locks) && statusFiles == old(statusFiles)
    {
      var seeded := SeedAndroid(t.params, base + "/input/original.apk", fs);
      t' := t.(params := seeded.0);
      fs := seeded.1;
      tasks := tasks[t.id := t'];
    }

    /** `get_task`: the stored task, or 404 for an unknown id. */
    method GetTask(id: string) returns (r: Result<Task, HttpError>)
      ensures r.Ok? <==> id in tasks
      ensures id in tasks ==> r.value == tasks[id]
      ensures id !in tasks ==> r == Err(NotFound)
    {
      if id in tasks {
        return Ok(tasks[id]);
      }
      return Err(NotFound);
    }

    /** `list_artifacts`: the stored task's artifacts, or 404 for an unknown id. */
    method ListArtifacts(id: string) returns (r: Result<seq<Artifact>, HttpError>)
      ensures r.Ok? <==> id in tasks
      ensures id in tasks ==> r.value == tasks[id].artifacts
      ensures id !in tasks ==> r == Err(NotFound)
    {
      if id in tasks {
        return Ok(tasks[id].artifacts);
      }
      return Err(NotFound);
    }

    /** `cancel_task`: 404 for an unknown id; an active task becomes CANCELLED with its
        finish time set and its status file written; any other task is returned unchanged. */
    method CancelTask(id: string, now: int) returns (r: Result<Task, HttpError>)
      requires Valid()
      modifies this
      ensures Valid()
      ensures id !in old(tasks) ==> r == Err(NotFound) && tasks == old(tasks) && statusFiles == old(statusFiles)
      ensures id in old(tasks) ==>
        var t := old(tasks)[id];
        && r == Ok(Cancel(t, now))
        && tasks == old(tasks)[id := Cancel(t, now)]
        && statusFiles == if IsActive(t) then old(statusFiles)[StatusPath(t.date, t.id) := Cancel(t, now)]
                          else old(statusFiles)
      ensures locks == old(locks) && fs == old(fs)
    {
      if id !in tasks {
        return Err(NotFound);
      }
      var t := tasks[id];
      if IsActive(t) {
        t := t.(state := Cancelled, finishedAt := Some(now));
        tasks := tasks[id := t];
        statusFiles := statusFiles[StatusPath(t.date, t.id) := t];
      }
      return Ok(t);
    }

    /** First step of every runner: the task enters PREPARING, whatever its state. */
    method BeginPreparing(id: string)
      requires Valid() && id in tasks
      modifies this
      ensures Valid()
      ensures tasks == old(tasks)[id := ApplyStep(old(tasks)[id], BeginPrepare)]
      ensures tasks[id].state == Preparing
      ensures locks == old(locks) && fs == old(fs) && statusFiles == old(statusFiles)
    {
      tasks := tasks[id := tasks[id].(state := Preparing)];
    }

    /** The runner's step into RUNNING: the start time is set here and only here, and the
        log path is recorded under its key. */
    method BeginRunning(id: string, now: int, logKey: string, logPath: string)
      requires Valid() && id in tasks
      modifies this
      ensures Valid()
      ensures tasks == old(tasks)[id := ApplyStep(old(tasks)[id], BeginRun(now, logKey, logPath))]
      ensures tasks[id].state == Running && tasks[id].startedAt == Some(now)
      ensures tasks[id].logs == old(tasks)[id].logs[logKey := logPath]
      ensures locks == old(locks) && fs == old(fs) && statusFiles == old(statusFiles)
    {
      var t := tasks[id];
      tasks := tasks[id := t.(state := Running, startedAt := Some(now), logs := t.logs[logKey := logPath])];
    }

    /** The artifact-collecting loop of `_finalize_task`: sort the entries found by path,
        then one artifact per regular file, in that order. */
    static method CollectArtifacts(found: seq<OutputEntry>) returns (artifacts: seq<Artifact>)
      ensures artifacts == CollectedArtifacts(found)
      ensures forall i, j :: 0 <= i < j < |artifacts| ==> !PathBefore(artifacts[j].path, artifacts[i].path)
    {
      var listing := ByPath(found);
      CollectedArtifactsSortedByPath(found);
      artifacts := [];
      var i := 0;
      while i < |listing|
        invariant 0 <= i <= |listing|
        invariant artifacts == ArtifactsOf(listing[..i])
      {
        ArtifactsOfPrefix(listing, i);
        if listing[i].isFile {
          artifacts := artifacts + [ToArtifact(listing[i])];
        }
        i := i + 1;
      }
      assert listing[..i] == listing;
    }

    /** `_finalize_task`: sets the finish time, SUCCEEDED or FAILED, the error, and the
        artifacts collected from the output listing, then writes the status file. */
    method FinalizeTask(id: string, succeeded: bool, err: Option<string>, now: int, listing: seq<OutputEntry>)
      requires Valid() && id in tasks
      modifies this
      ensures Valid()
      ensures var t := Finalize(old(tasks)[id], succeeded, err, now, CollectedArtifacts(listing));
        && tasks == old(tasks)[id := t]
        && statusFiles == old(statusFiles)[StatusPath(t.date, t.id) := t]
      ensures locks == old(locks) && fs == old(fs)
    {
      var artifacts := CollectArtifacts(listing);
      StoreAndWriteStatus(Finalize(tasks[id], succeeded, err, now, artifacts));
    }

    /** Stores a well-formed task under its own id and writes its status file. */
    method StoreAndWriteStatus(t: Task)
      requires Valid() && t.id in tasks && WellFormed(t)
      modifies this
      ensures Valid()
      ensures tasks == old(tasks)[t.id := t]
      ensures statusFiles == old(statusFiles)[StatusPath(t.date, t.id) := t]
      ensures locks == old(locks) && fs == old(fs)
    {
      tasks := tasks[t.id := t];
      statusFiles := statusFiles[StatusPath(t.date, t.id) := t];
    }

    /** The end of `run_payload_task` or `run_listener_task` once the tool has exited with
        `rc`: finalise with the tool's outcome. */
    method FinishToolTask(id: string, tool: string, rc: int, now: int, listing: seq<OutputEntry>)
      requires Valid() && id in tasks
      modifies this
      ensures Valid()
      ensures var t := Finalize(old(tasks)[id], rc == 0, ToolOutcome(tool, rc).1, now, CollectedArtifacts(listing));
        && tasks == old(tasks)[id := t]
        && statusFiles == old(statusFiles)[StatusPath(t.date, t.id) := t]
      ensures tasks[id].state == (if rc == 0 then Succeeded else Failed)
      ensures locks == old(locks) && fs == old(fs)
    {
      var outcome := ToolOutcome(tool, rc);
      FinalizeTask(id, outcome.0, outcome.1, now, listing);
    }

    /** `run_listener_task` writes the handler resource file into the output directory
        before it enters RUNNING. */
    method WriteHandlerResource(id: string)
      requires Valid() && id in tasks
      modifies this
      ensures fs == old(fs) + {TaskBase(old(tasks)[id].date, id) + "/output/handler.rc"}
      ensures tasks == old(tasks) && locks == old(locks) && statusFiles == old(statusFiles)
    {
      fs := fs + {TaskBase(tasks[id].date, id) + "/output/handler.rc"};
    }

    /** The input step of `run_android_task` (lines 184-191): copy the given apk or the
        sample into `input/original.apk`; with neither, finalise FAILED with "missing
        original apk". When the copy raises, the runner stops and nothing else changes. */
    method PrepareAndroidInput(id: string, now: int, listing: seq<OutputEntry>) returns (outcome: InputOutcome)
      requires Valid() && id in tasks
      modifies this
      ensures Valid()
      ensures var t := old(tasks)[id];
        outcome == AndroidInput(Param(t.params, "apk_path"), OriginalApk(t.date, id), old(fs))
      ensures outcome.CopiedFrom? ==>
        fs == old(fs) + {OriginalApk(old(tasks)[id].date, id)} && tasks == old(tasks) && statusFiles == old(statusFiles)
      ensures outcome == SameFileError ==> fs == old(fs) && tasks == old(tasks) && statusFiles == old(statusFiles)
      ensures outcome == MissingInput ==>
        var t := Finalize(old(tasks)[id], false, Some("missing original apk"), now, CollectedArtifacts(listing));
        && fs == old(fs)
        && tasks == old(tasks)[id := t]
        && statusFiles == old(statusFiles)[StatusPath(t.date, t.id) := t]
      ensures locks == old(locks)
    {
      var t := tasks[id];
      var dst := OriginalApk(t.date, id);
      outcome := AndroidInput(Param(t.params, "apk_path"), dst, fs);
      if outcome.CopiedFrom? {
        fs := fs + {dst};
      } else if outcome == MissingInput {
        FinalizeTask(id, false, Some("missing original apk"), now, listing);
      }
    }

    /** The end of `run_android_task` once the tool has exited with `rc`. */
    method FinishAndroidTask(id: string, rc: int, outputExists: bool, now: int, listing: seq<OutputEntry>)
      requires Valid() && id in tasks
      modifies this
      ensures Valid()
      ensures var (ok, err) := AndroidOutcome(rc, outputExists);
        var t := Finalize(old(tasks)[id], ok, err, now, CollectedArtifacts(listing));
        && tasks == old(tasks)[id := t]
        && statusFiles == old(statusFiles)[StatusPath(t.date, t.id) := t]
      ensures locks == old(locks) && fs == old(fs)
    {
      var outcome := AndroidOutcome(rc, outputExists);
      FinalizeTask(id, outcome.0, outcome.1, now, listing);
    }
  }
}
