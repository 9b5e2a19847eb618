# Headless orchestrator: bookkeeping and scoring core

This project models, in Dafny, the bookkeeping and scoring core of the headless
orchestrator service.

- **Task lifecycle** (`orchestrator/app.py`). An in-memory table of tasks moves each task
  through SUBMITTED, PREPARING and RUNNING to SUCCEEDED or FAILED, with a CANCELLED
  transition. The endpoints create, fetch, list artifacts and cancel, and the runners
  drive each task through its phases.
- **Record store** (`orchestrator/database.py`). It keeps five tables: uploaded files, task
  executions, audit events, file operations and security events. The model covers the
  status-update rules, the lookups, the per-user listing and the retention sweep.
- **APK scoring** (`orchestrator/apk_analysis_engine.py`). It computes the permission risk
  score and level, the obfuscation and protection scores, and the overall risk assessment.
  It also takes the permission list out of `aapt dump` output.
- **Compatibility rules** (`orchestrator/compatibility_testing.py`). These are:
  - the API-level restrictions, permission model and deprecated APIs;
  - the manifest check;
  - native-library parsing and the per-architecture decisions with their recommendations;
  - the manufacturer check;
  - the overall score, grade and summary.
- **Memory optimizer** (`orchestrator/performance_optimization.py`). It covers the object
  pools (bounded LIFO stacks with hit and miss counters), the cache eviction by last
  access, and the optimization summary.
- **Error handling** (`orchestrator/error_handler.py`). It classifies a process outcome into
  a (success, message) pair and builds the subprocess error text and the numbered error
  summary.

The project has nine files:
- `wrappers.dfy` (Option, Result);
- `strings.dfy` (string helpers with Python's meaning: `startswith`, `in`, `split`, `strip`,
  `str(int)`, `<` on `str`);
- `seqs.dfy` (filter, stable sort, dedupe, Python's lexicographic order and their lemmas);
- one module per source file.

Things the service gets from outside become parameters:
- clock readings;
- random hex ids;
- process outcomes and exit codes;
- directory listings and the set of existing paths;
- tool output text;
- the APK's indicator counts.

The class-based parts (`TaskOrchestrator.Orchestrator`, `Database.DatabaseManager`,
`Performance.MemoryOptimizer`) update their fields in place as the Python objects do, and
each method follows the code as written, including `_optimize_memory_cache` with its
zero-limit defect. The scoring rules are functions. Where the code is defective, a
corrected definition sits beside the as-written one, with lemmas relating the two.

## Model

| member | source | states |
|---|---|---|
| ErrorHandler.RunCommand | orchestrator/error_handler.py:25-53 | success iff the process exited with code 0, and then the message is the stripped stdout plus newline plus stderr; a non-zero exit gives "Command failed (exit code N): " followed by that output; a missing command names `cmd[0]` |
| ErrorHandler.FailureMessagesAreDistinct | orchestrator/error_handler.py:41-53 | every failing outcome's message can be classified back to the kind of failure it came from (non-zero exit, timeout, not found, denied, unexpected) |
| ErrorHandler.HandleSubprocessError | orchestrator/error_handler.py:88-98 | the text is the return-code header, then "\nStdout: " and stdout iff stdout is non-empty, then "\nStderr: " and stderr iff stderr is non-empty, and nothing else |
| ErrorHandler.CreateErrorSummary | orchestrator/error_handler.py:113-123 | the loop builds exactly the summary text defined by `ErrorSummary` |
| ErrorHandler.SummaryListsEachErrorInOrder | orchestrator/error_handler.py:113-123 | split on newlines, the summary is the header with the error count, then one numbered line per error in input order starting at 1, then an empty tail |
| TaskOrchestrator.NewTask | orchestrator/app.py:78-87 | a prepared task is SUBMITTED with no start, finish or artifacts, and carries the given id, date, kind, params and creation time |
| TaskOrchestrator.Cancel | orchestrator/app.py:268-278 | an active task becomes CANCELLED with `finished_at` set and nothing else changed; any other task is returned unchanged; the result is never active |
| TaskOrchestrator.CancelIdempotent | orchestrator/app.py:273-276 | cancelling twice is the same as cancelling once |
| TaskOrchestrator.ArtifactsOf | orchestrator/app.py:94-99 | one artifact per regular file of the listing |
| TaskOrchestrator.ArtifactsAreTheRegularFiles | orchestrator/app.py:96-99 | the artifacts of a listing are exactly its regular files, in listing order, each with its name, path, size and digest; directories contribute nothing |
| TaskOrchestrator.PathOrder | orchestrator/app.py:96 | the order `sorted` uses on paths (parts compared in turn as strings) is a strict total order |
| TaskOrchestrator.PathOrderIsNotStringOrder | orchestrator/app.py:96 | path order differs from string order: `a/b` comes before `a-b` as a path and after it as a string |
| TaskOrchestrator.ByPath | orchestrator/app.py:96 | the sorted listing is a permutation of the entries found, with no entry after a later one in path order |
| TaskOrchestrator.CollectedArtifactsSortedByPath | orchestrator/app.py:96-99 | the collected artifacts are in ascending path order |
| TaskOrchestrator.CollectedArtifactsCoverFiles | orchestrator/app.py:96-99 | every regular file found has its artifact collected |
| TaskOrchestrator.CollectedArtifactsAreFiles | orchestrator/app.py:96-99 | every collected artifact describes a regular file found |
| TaskOrchestrator.Finalize | orchestrator/app.py:90-101 | the state is SUCCEEDED iff `succeeded`, else FAILED; `finished_at`, error and artifacts are set; every other field is kept, whatever the previous state |
| TaskOrchestrator.FinalizeRevivesCancelledTask | orchestrator/app.py:90-93 | a cancelled task that is finalised as succeeded ends SUCCEEDED |
| TaskOrchestrator.CancelledTaskRunsToCompletion | orchestrator/app.py:106-124 | a task cancelled before its runner starts still goes through preparing and running and ends SUCCEEDED |
| TaskOrchestrator.FinalizeUnlessCancelled | orchestrator/app.py:90-101 | the corrected finalisation: it leaves a CANCELLED task untouched and is `Finalize` otherwise |
| TaskOrchestrator.ApplyStepUnlessCancelled | orchestrator/app.py:106-124 | with the corrected finalisation, a runner's finishing step uses it |
| TaskOrchestrator.CancellationIsTerminal | orchestrator/app.py:268-278 | with the corrected runner, no sequence of runner steps changes a cancelled task |
| TaskOrchestrator.ToolOutcome | orchestrator/app.py:123-124 | a payload or listener run succeeds iff rc is 0, with no error then and "tool rc=N" otherwise |
| TaskOrchestrator.AndroidOutcome | orchestrator/app.py:206-214 | an android run succeeds iff rc is 0 or the output file exists, and its error is empty iff the output file exists |
| TaskOrchestrator.AndroidSuccessWithError | orchestrator/app.py:214 | rc 0 without an output file finalises SUCCEEDED with a non-empty error |
| TaskOrchestrator.AndroidInput | orchestrator/app.py:180-191 | a given path that exists is the source, else the bundled sample when it exists; the chosen source is copied, or is a same-file error exactly when it is the destination; the input is missing iff neither exists |
| TaskOrchestrator.AndroidInputFixed | orchestrator/app.py:180-191 | the corrected input step copies from the given path when it exists, else from the sample when it exists; it never raises a same-file error and reports a missing input in the same cases |
| TaskOrchestrator.SeedAndroid | orchestrator/app.py:232-239 | when the given apk path does not exist and the sample does, the sample is copied to the task's input and `apk_path` points at that copy; otherwise nothing changes |
| TaskOrchestrator.SeededAndroidTaskCrashes | orchestrator/app.py:232-239 | after seeding, the runner's input step copies the seeded file onto itself and fails with a same-file error |
| TaskOrchestrator.SeededAndroidTaskRunsWhenFixed | orchestrator/app.py:180-191 | with the corrected input step, a seeded task finds its input |
| TaskOrchestrator.Orchestrator.constructor | orchestrator/app.py:46-47 | the task and lock tables start empty |
| TaskOrchestrator.Orchestrator.PrepareTask | orchestrator/app.py:78-87 | the new SUBMITTED task is stored under "hex-kind", a lock is added and the input, temp, output and logs directories are created |
| TaskOrchestrator.Orchestrator.SeedAndroidTask | orchestrator/app.py:232-239 | the stored task gets the sample apk copied to its input and as its `apk_path` exactly when its own apk is missing and the sample exists; nothing else changes |
| TaskOrchestrator.Orchestrator.CreateTask | orchestrator/app.py:226-249 | an unsupported kind is rejected with the table unchanged; otherwise the (android-seeded) task is added under its id |
| TaskOrchestrator.Orchestrator.GetTask | orchestrator/app.py:252-257 | returns the task iff the id is known, else not-found |
| TaskOrchestrator.Orchestrator.ListArtifacts | orchestrator/app.py:260-265 | returns the task's artifacts iff the id is known, else not-found |
| TaskOrchestrator.Orchestrator.CancelTask | orchestrator/app.py:268-278 | unknown id gives not-found and no change; otherwise the task becomes `Cancel(t)`, and its status file is written only when it was active |
| TaskOrchestrator.Orchestrator.BeginPreparing | orchestrator/app.py:108-109 | the task moves to PREPARING and nothing else changes |
| TaskOrchestrator.Orchestrator.BeginRunning | orchestrator/app.py:119-122 | the task moves to RUNNING with `started_at` set and its log path recorded |
| TaskOrchestrator.Orchestrator.CollectArtifacts | orchestrator/app.py:95-99 | sorts the entries found by path, then the loop yields `CollectedArtifacts`: one artifact per regular file, in ascending path order |
| TaskOrchestrator.Orchestrator.FinalizeTask | orchestrator/app.py:90-101 | the task becomes `Finalize(...)` with the artifacts collected from the sorted listing, and its status file is written |
| TaskOrchestrator.Orchestrator.StoreAndWriteStatus | orchestrator/app.py:98-101 | the task is stored under its id and its status file written; nothing else changes |
| TaskOrchestrator.Orchestrator.FinishToolTask | orchestrator/app.py:123-124 | a payload or listener task ends SUCCEEDED iff rc is 0, with the tool's error text |
| TaskOrchestrator.Orchestrator.WriteHandlerResource | orchestrator/app.py:131-140 | only the handler resource file is added |
| TaskOrchestrator.Orchestrator.PrepareAndroidInput | orchestrator/app.py:180-191 | a copied input is added to the file set; a missing input finalises the task FAILED; a same-file copy changes nothing |
| TaskOrchestrator.Orchestrator.FinishAndroidTask | orchestrator/app.py:206-214 | the task is finalised with `AndroidOutcome(rc, output exists)` |
| Database.TableOkAppend | orchestrator/database.py:16-87 | appending a row with the next AUTOINCREMENT id, ordered after every row, keeps ids increasing and within the ids handed out (and `file_id`/`task_id` UNIQUE) |
| Database.TableOkFilter | orchestrator/database.py:392-416 | deleting rows keeps the table invariant |
| Database.Duration | orchestrator/database.py:235-243 | a duration exists iff the status is completed or failed and a start time exists, and it is now minus the start |
| Database.OutputFilesColumn | orchestrator/database.py:250 | an empty output list is stored as NULL, otherwise the list itself |
| Database.UpdatedTask | orchestrator/database.py:245-250 | status "running" sets the started timestamp, any other status the completed one; status, success, error, outputs and duration are written; keys are kept |
| Database.StartedOf | orchestrator/database.py:240-241 | the start time read back is that of the first row with that task id, and none when the id is absent |
| Database.FindTask | orchestrator/database.py:386-390 | a row is found iff one has that task id, and it is the first row of the table with that id |
| Database.FindFile | orchestrator/database.py:380-384 | a row is found iff one has that file id, and it is a row of the table with that id |
| Database.SweepAudit | orchestrator/database.py:399 | keeps exactly the audit events at or after the cutoff |
| Database.SweepOperations | orchestrator/database.py:402 | keeps exactly the file operations at or after the cutoff |
| Database.SweepTasks | orchestrator/database.py:405-408 | removes only completed or failed tasks that finished before the cutoff; tasks in any other status are kept |
| Database.SweepFiles | orchestrator/database.py:411-414 | removes only processed or failed files processed before the cutoff; files in any other status are kept |
| Database.SweepIdempotent | orchestrator/database.py:392-416 | sweeping twice with the same cutoff equals sweeping once |
| Database.UserFiles | orchestrator/database.py:319-333 | only that user's rows (and status, if given), newest upload first; exactly min(limit, matching) rows for a non-negative limit and all of them otherwise; no matching row left out is newer than a returned one |
| Database.NewestLeftOut | orchestrator/database.py:327-330 | a row left out of a newest-first selection is no newer than any row kept |
| Database.DatabaseManager.constructor | orchestrator/database.py:148-157 | all five tables start empty |
| Database.DatabaseManager.RecordFileUpload | orchestrator/database.py:175-197 | a duplicate file id is an error with no change; otherwise one row with the next id is appended |
| Database.DatabaseManager.RecordTaskExecution | orchestrator/database.py:210-228 | a duplicate task id is an error with no change; otherwise one row with the next id is appended |
| Database.DatabaseManager.RecordAuditEvent | orchestrator/database.py:253-273 | appends one audit row with the next id and returns that id; other tables unchanged |
| Database.DatabaseManager.RecordFileOperation | orchestrator/database.py:275-296 | appends one operation row with the next id and returns that id; other tables unchanged |
| Database.DatabaseManager.RecordSecurityEvent | orchestrator/database.py:298-317 | appends one unresolved security row with the next id and returns that id; other tables unchanged |
| Database.DatabaseManager.UpdateFileRows | orchestrator/database.py:199-208 | rows with the file id get the new status, task, error and processed time; all other rows are unchanged |
| Database.DatabaseManager.UpdateFileStatus | orchestrator/database.py:199-208 | the file table is updated as above and no other table changes |
| Database.DatabaseManager.UpdateTaskRows | orchestrator/database.py:230-251 | rows with the task id become `UpdatedTask(...)`; all other rows are unchanged |
| Database.DatabaseManager.UpdateTaskStatus | orchestrator/database.py:230-251 | the duration comes from the stored start time; the task table is updated as above and no other table changes |
| Database.DatabaseManager.GetUserFiles | orchestrator/database.py:319-333 | returns `UserFiles` of the file table, all rows of that user |
| Database.DatabaseManager.GetTaskById | orchestrator/database.py:386-390 | a row is returned iff the task id is stored |
| Database.DatabaseManager.GetFileById | orchestrator/database.py:380-384 | a row is returned iff the file id is stored |
| Database.DatabaseManager.DeleteOldAuditEvents | orchestrator/database.py:399 | the audit table becomes its sweep and nothing else changes |
| Database.DatabaseManager.DeleteOldFileOperations | orchestrator/database.py:402 | the operations table becomes its sweep and nothing else changes |
| Database.DatabaseManager.DeleteOldTasks | orchestrator/database.py:405-408 | the task table becomes its sweep and nothing else changes |
| Database.DatabaseManager.DeleteOldFiles | orchestrator/database.py:411-414 | the file table becomes its sweep and nothing else changes |
| Database.DatabaseManager.CleanupOldRecords | orchestrator/database.py:392-416 | the four tables are swept at now minus `days` days; security events are kept |
| ApkAnalysis.DangerousAndMaliciousDisjoint | orchestrator/apk_analysis_engine.py:64-105 | no permission is in both the dangerous and the malicious set |
| ApkAnalysis.CategoriesAreDisjoint | orchestrator/apk_analysis_engine.py:317-340 | a permission is listed under at most one category |
| ApkAnalysis.NonEmptyCategories | orchestrator/apk_analysis_engine.py:340 | each listed category is one of the categories, with all its permissions, and has at least one |
| ApkAnalysis.NonEmptyCategoriesListsEachCategory | orchestrator/apk_analysis_engine.py:340 | the category listing names exactly the categories that received a permission, in dictionary order, each with all its permissions |
| ApkAnalysis.LevelOf | orchestrator/apk_analysis_engine.py:360-369 | each level holds iff the score lies in its threshold band |
| ApkAnalysis.LevelMonotone | orchestrator/apk_analysis_engine.py:360-369 | a higher score never gets a lower level |
| ApkAnalysis.PermissionRiskLevel | orchestrator/apk_analysis_engine.py:360-369 | CRITICAL iff the score is at least 20, MINIMAL iff below 5 |
| ApkAnalysis.CombinationsOf | orchestrator/apk_analysis_engine.py:342-353 | each combination is flagged iff both its categories are present; together they add at most 24 points |
| ApkAnalysis.AnalyzePermissions | orchestrator/apk_analysis_engine.py:277-371 | dangerous and malicious lists are the input's members of each set, disjoint; score is 3 per dangerous plus 5 per malicious plus the combination points; level from the score; escalation risk iff some permission is malicious |
| ApkAnalysis.FilePermissions | orchestrator/apk_analysis_engine.py:305-340 | the loop fills each list with exactly the permissions that belong to it, in input order, and scores 3 and 5 points |
| ApkAnalysis.ListCategories | orchestrator/apk_analysis_engine.py:340 | the non-empty categories, in dictionary order |
| ApkAnalysis.Flag | orchestrator/apk_analysis_engine.py:342-353 | the flagged combinations and the points they add |
| ApkAnalysis.PermissionPointsBound | orchestrator/apk_analysis_engine.py:305-314 | the per-permission points are at most 5 per permission |
| ApkAnalysis.RatioPoints | orchestrator/apk_analysis_engine.py:541-547 | 20 below 2 methods per class, 10 below 5, none at 5 or more or without classes |
| ApkAnalysis.ObfuscationScore | orchestrator/apk_analysis_engine.py:537-567 | min(100, sum of the indicator points): 100 iff the sum reaches 100, the sum itself otherwise, and 100 once any indicator count is large enough |
| ApkAnalysis.ObfuscationMonotone | orchestrator/apk_analysis_engine.py:537-567 | more reflection, dynamic-loading or native indicators never lower the score |
| ApkAnalysis.ProtectionScore | orchestrator/apk_analysis_engine.py:718-730 | min(100, 15a + 10b + 20c + 10d + 5e + 25f) |
| ApkAnalysis.ProtectionMonotone | orchestrator/apk_analysis_engine.py:718-730 | more detections never lower the score; four packing indicators reach 100 |
| ApkAnalysis.AssessRisk | orchestrator/apk_analysis_engine.py:787-845 | the score is min(100, perm + obf/5 + prot/4); the level comes from the uncapped score at 70/50/30/10; each of the three risk factors appears iff its condition holds, and nothing else, in the order malicious, obfuscation, protection; difficulty HIGH iff prot > 30, MEDIUM iff in (10, 30], LOW iff at most 10 |
| ApkAnalysis.AssessRiskMonotone | orchestrator/apk_analysis_engine.py:787-845 | raising a sub-score never lowers the overall score or the level |
| ApkAnalysis.PermissionOfLine | orchestrator/apk_analysis_engine.py:185 | a match is a non-empty value without quotes |
| ApkAnalysis.LastNameValue | orchestrator/apk_analysis_engine.py:185 | the greedy `.*` picks the rightmost `name="..."` that matches: a match there, and none further right; no result only when none matches anywhere |
| ApkAnalysis.FirstIndexOf | orchestrator/apk_analysis_engine.py:185 | the first position where `uses-permission` starts, and none iff it occurs nowhere |
| ApkAnalysis.PermissionsOfLines | orchestrator/apk_analysis_engine.py:185 | every collected value is non-empty and free of double quotes, as `[^"]+` requires |
| ApkAnalysis.PermissionsOfLinesMembers | orchestrator/apk_analysis_engine.py:185 | a value is collected iff the pattern finds it on some line |
| ApkAnalysis.DistinctPermissions | orchestrator/apk_analysis_engine.py:185-186 | the matches of the lines, without duplicates, and nothing else |
| ApkAnalysis.ExtractPermissions | orchestrator/apk_analysis_engine.py:184-186 | the permission list has no duplicates, holds exactly the values the pattern finds on the output's lines, and each is non-empty and quote-free |
| Compatibility.RestrictionsFor | orchestrator/compatibility_testing.py:339-354 | each of the five restrictions is listed iff the API level reaches its threshold (26, 28, 29, 30, 31) |
| Compatibility.CheckApiRestrictions | orchestrator/compatibility_testing.py:339-354 | the appends build exactly `RestrictionsFor(api)` |
| Compatibility.RestrictionsNest | orchestrator/compatibility_testing.py:343-354 | the list for a lower level is a prefix of the list for a higher one |
| Compatibility.PermissionModelFor | orchestrator/compatibility_testing.py:356-363 | runtime iff api >= 23, install iff >= 26, notification and media iff >= 33 |
| Compatibility.PermissionModelMonotone | orchestrator/compatibility_testing.py:356-363 | a flag true at one level stays true at every higher level |
| Compatibility.DeprecatedApis | orchestrator/compatibility_testing.py:318-337 | one entry exactly for levels 23, 28, 29, 30, 31, 33 and 34, none otherwise |
| Compatibility.AnalyzeManifest | orchestrator/compatibility_testing.py:237-279 | an empty manifest is the one issue; an issue iff minSdk is above the target, a warning and advice iff targetSdk is below it |
| Compatibility.TestApiCompatibility | orchestrator/compatibility_testing.py:201-235 | compatible iff there are no issues iff the manifest is present and its minSdk does not exceed the level; issues, warnings and recommendations are the manifest check's, and deprecated APIs, restrictions and permission model are the rules above |
| Compatibility.AnalyzeNativeLibraries | orchestrator/compatibility_testing.py:410-439 | a failed listing gives no libraries; otherwise the architectures are exactly those of the `lib/<arch>/<name>.so` lines in first-seen order, each with its library names in line order |
| Compatibility.AddLibrary | orchestrator/compatibility_testing.py:429-433 | appends the library under its architecture, adding the architecture when new |
| Compatibility.TestSingleArchitecture | orchestrator/compatibility_testing.py:441-475 | native support iff the target has libraries; no libraries at all is compatible; arm64 on armeabi-v7a or x86_64 on x86 is emulation with moderate impact, and every other case has impact "none"; compatible iff one of these |
| Compatibility.NoNativeCodeRunsEverywhere | orchestrator/compatibility_testing.py:455-459 | an APK without native code is compatible with every target, without native support |
| Compatibility.Missing | orchestrator/compatibility_testing.py:486-487 | the targets that are not supported, each once: a target is listed iff it is not supported, and no target twice |
| Compatibility.ArchitectureRecommendations | orchestrator/compatibility_testing.py:477-498 | missing-support advice iff some target is unsupported; App Bundle advice iff more than 2 architectures; ARM64 advice iff armeabi-v7a without arm64-v8a; one entry per condition that holds and nothing else |
| Compatibility.TestArchitectureCompatibility | orchestrator/compatibility_testing.py:371-408 | supported architectures are "universal" without native code, else the parsed ones; a failed listing gives no libraries; one matrix entry per target, each `TestSingleArchitecture`; each of the three recommendations iff its condition holds, and nothing else |
| Compatibility.TestManufacturer | orchestrator/compatibility_testing.py:542-577 | an unprofiled manufacturer is an error naming it; a profiled one is reported under its name with the `Messages` of its profile's issues and optimizations and the `ManufacturerRecommendations` for those issues, compatible iff it has at most 2 issues |
| Compatibility.Messages | orchestrator/compatibility_testing.py:579-615 | one message per profile entry that has one |
| Compatibility.MessagesMembers | orchestrator/compatibility_testing.py:579-615 | a message is listed iff some profile entry reports it |
| Compatibility.MessagesConcat | orchestrator/compatibility_testing.py:579-615 | the messages follow the order of the entries: the messages of two runs of entries are those of the first, then those of the second |
| Compatibility.ManufacturerRecommendations | orchestrator/compatibility_testing.py:617-628 | the two pieces of issue advice, first, exactly when there are issues, and the priority advice, last, exactly when the testing priority is high; nothing else |
| Compatibility.ProfiledManufacturersAreCompatible | orchestrator/compatibility_testing.py:507-577 | every profiled manufacturer is compatible |
| Compatibility.OnlyFirstIssueReported | orchestrator/compatibility_testing.py:507-597 | in every profile only the first listed issue is one that has a message |
| Compatibility.AtMostOneIssue | orchestrator/compatibility_testing.py:507-577 | a profiled manufacturer raises at most one issue, below the threshold that marks it incompatible |
| Compatibility.Percent | orchestrator/compatibility_testing.py:896-899 | the pass rate: r * total == 100 * compatible, in 0..100, and 0 without tests |
| Compatibility.ScreenScore | orchestrator/compatibility_testing.py:942-949 | 100 iff adaptive layouts and density support, 90 iff exactly one of them, 80 iff neither |
| Compatibility.ScreenNeverMajor | orchestrator/compatibility_testing.py:942-956 | the screen score is never a major issue, and it is a strength iff adaptive layouts or density support |
| Compatibility.BandOf | orchestrator/compatibility_testing.py:951-956 | major below the lower bound, strength at or above the upper one |
| Compatibility.GradeOf | orchestrator/compatibility_testing.py:963-979 | each grade holds iff the score lies in its band: A+ from 95, A from 90, B+ from 85, B from 80, C+ from 75, C from 70, D from 60, F below |
| Compatibility.GradeMonotone | orchestrator/compatibility_testing.py:963-979 | a higher score never gets a lower grade |
| Compatibility.CategoryScores | orchestrator/compatibility_testing.py:888-949 | the API pass rate, the architecture pass rate when tested, the manufacturer pass rate and the screen score, in that order, each in 0..100 |
| Compatibility.Mean | orchestrator/compatibility_testing.py:958-961 | the mean: r times the count is the sum of the scores, and it lies in 0..100 |
| Compatibility.OverallAssessment | orchestrator/compatibility_testing.py:876-996 | the score is the mean of the category scores; the grade comes from it; each category's message is a major issue, minor issue or strength iff its score is in that band; each recommendation appears iff its condition holds, and nothing else |
| Compatibility.AssessmentOf | orchestrator/compatibility_testing.py:951-996 | the three lists hold the messages of the entries in each band, in category order; grade and recommendations come from the score and the lists |
| Compatibility.CategoryBands | orchestrator/compatibility_testing.py:900-956 | one entry per category, holding the band its score falls in and that band's message |
| Compatibility.CategoriesWellFormed | orchestrator/compatibility_testing.py:900-956 | the four categories have their major threshold below the minor one, and all twelve messages are distinct |
| Compatibility.InBandMember | orchestrator/compatibility_testing.py:951-956 | a message is listed under a band iff some entry carries it with that band |
| Compatibility.FilesCategory | orchestrator/compatibility_testing.py:900-956 | with distinct messages, a category's message is in a list iff its score falls in that list's band |
| Compatibility.AllPassingIsAPlus | orchestrator/compatibility_testing.py:876-996 | when every test passes and the screen has both features, the score is 100, the grade A+, there are four strengths and no issues or recommendations |
| Compatibility.SumConstant | orchestrator/compatibility_testing.py:958-961 | the sum of n equal scores v is n times v |
| Compatibility.BandsPartition | orchestrator/compatibility_testing.py:888-956 | every category lands in exactly one of major issues, minor issues and strengths |
| Compatibility.CompatibilitySummary | orchestrator/compatibility_testing.py:998-1039 | total counts API and manufacturer results; passed counts the compatible ones; failed is the rest and never negative; findings and next steps come from the assessment |
| Compatibility.UnprofiledManufacturerCountsAsPassed | orchestrator/compatibility_testing.py:1023-1025 | the error result for an unprofiled manufacturer counts as a passed test |
| Performance.EmptyPool | orchestrator/performance_optimization.py:172-194 | a new pool is empty, within capacity, with zero hits and misses |
| Performance.Take | orchestrator/performance_optimization.py:199-211 | a non-empty pool gives its last object and counts one hit; an empty one gives nothing and counts one miss; capacity is kept |
| Performance.Give | orchestrator/performance_optimization.py:213-232 | the object is appended and True reported iff the pool is below its maximum size, otherwise nothing changes |
| Performance.GiveThenTake | orchestrator/performance_optimization.py:199-232 | taking right after an accepted give returns that object and leaves the pool as it was, with one more hit |
| Performance.TakeThenGive | orchestrator/performance_optimization.py:199-232 | giving back what was just taken is accepted and leaves the pool as it was, with one more hit |
| Performance.ByAccess | orchestrator/performance_optimization.py:242-245 | the keys sorted by last access, as a permutation of the cache's keys |
| Performance.ByAccessStable | orchestrator/performance_optimization.py:242-245 | the sort is stable: keys with the same last access keep the cache's order |
| Performance.KeepCount | orchestrator/performance_optimization.py:238-248 | min(cache size, 256 per MiB of the limit): at most both, equal to one of them; non-negative for a positive limit and 0 for a zero limit |
| Performance.SliceTo | orchestrator/performance_optimization.py:250 | Python's `s[:stop]`, with a negative stop counted from the end |
| Performance.Delete | orchestrator/performance_optimization.py:251-252 | exactly the given keys are removed and the other entries are kept |
| Performance.EvictAsWritten | orchestrator/performance_optimization.py:234-264 | the eviction as written keeps the cache well-formed, and for a non-empty cache reports 1 KiB freed per entry reported removed |
| Performance.WrittenEviction | orchestrator/performance_optimization.py:242-259 | for a non-empty cache it deletes `sorted[:-keep]` when the size exceeds the keep count (else nothing), and reports the remaining size and size minus keep count as removed |
| Performance.EvictAsWrittenAgrees | orchestrator/performance_optimization.py:234-264 | for a memory limit of at least 1 MiB the eviction as written is the corrected `Evict` |
| Performance.DeleteNothing | orchestrator/performance_optimization.py:251-252 | deleting no keys leaves the cache as it was |
| Performance.ZeroLimitEvictsNothing | orchestrator/performance_optimization.py:238-259 | with a zero limit nothing is deleted, yet every entry is reported removed |
| Performance.Evict | orchestrator/performance_optimization.py:234-264 | the corrected eviction keeps the cache well-formed |
| Performance.EvictionAccounts | orchestrator/performance_optimization.py:234-264 | with the corrected eviction, the reported size is the entries left, size plus removed equals the old size, the size is the keep count (never below zero), and kept entries are unchanged |
| Performance.EvictionKeepsMostRecent | orchestrator/performance_optimization.py:241-252 | every evicted entry was accessed no later than every kept one |
| Performance.MemoryOptimizer.constructor | orchestrator/performance_optimization.py:95-99 | no pools and an empty cache, with the configured limit |
| Performance.MemoryOptimizer.SetupObjectPools | orchestrator/performance_optimization.py:168-197 | the four named pools are created empty with sizes 1000/500/500/200, other pools kept, and 4 pools of total size 2200 reported |
| Performance.MemoryOptimizer.GetFromPool | orchestrator/performance_optimization.py:199-211 | an unknown pool gives the factory's result and no change; a known pool takes as `Take` does |
| Performance.MemoryOptimizer.ReturnToPool | orchestrator/performance_optimization.py:213-232 | an unknown pool refuses; a known pool gives as `Give` does |
| Performance.MemoryOptimizer.DeleteKeys | orchestrator/performance_optimization.py:250-252 | the deletion loop removes exactly the given keys |
| Performance.MemoryOptimizer.OptimizeMemoryCache | orchestrator/performance_optimization.py:234-264 | the cache and report are `EvictAsWritten` of the old cache, as the code is written; the pools are unchanged |
| Performance.Summarize | orchestrator/performance_optimization.py:996-1023 | applied counts the features; successful is at most applied, equals it iff none failed, and successful plus failed is applied; five features are listed |
| Seqs.Select | orchestrator/database.py:324-330 | the rows passing the filter, ascending by key, exactly min(limit, matching) of them for a non-negative limit and all otherwise; no row left out sorts before a kept one |
| Seqs.LimitKeepsLeast | orchestrator/database.py:330 | cutting a sorted sequence to a limit leaves out nothing that sorts before what it keeps |
| Seqs.CountComplement | orchestrator/performance_optimization.py:1000-1004 | each flag is counted by exactly one of two complementary conditions |
| Seqs.SortByStable | orchestrator/performance_optimization.py:242-245 | Python's `sorted` by an integer key is stable: the elements with any one key keep their input order |
| Seqs.SortOn | orchestrator/app.py:96 | `sorted` by an order on keys: a permutation with no element after a later one |
| Seqs.LexOrder | orchestrator/app.py:96 | the lexicographic order Python uses on lists is a strict total order when the element order is one |

## Left out

- JSON serialisation of tasks and rows, timestamp text and timezones: timestamps are integers supplied by the caller.
- Threads and locks in `app.py`: the runner's phases are separate methods, so a cancel can fall between any two of them. Locks are only a set of ids.
- Subprocess execution, `_spawn`, `_sha256sum` and file I/O: exit codes, digests and sizes are inputs, and so is the recursive listing of the output directory, in the order the filesystem enumerates it (the model then sorts it as `sorted` does).
- The other record-store queries (`get_user_tasks`, `get_audit_trail`, `get_security_events`, `get_statistics`) and the module-level tracking helpers: outside the modelled core.
- SQL itself: the tables are sequences of rows in id order, and a statement is a filter or a map over them.
- ZIP, DEX and ELF parsing in the APK engine, `_parse_binary_xml`, and the non-permission fields of `_parse_aapt_output`: their results are inputs (indicator counts).
- ExtractPermissions: the pattern is applied line by line, so a value that spans a newline is not modelled. The order of `list(set(...))` is unspecified in Python, and the model uses first-occurrence order.
- Compatibility.AnalyzeManifest: `_extract_manifest` (the aapt call) is not part of this model, and the manifest is an input. The version-feature loop is left out because `_manifest_uses_feature` always returns False, so that loop never adds anything.
- Compatibility.OverallAssessment: floating point and `round(score, 1)` are modelled with exact reals, and the score is unrounded. The `isinstance` checks are dropped because the results are always dictionaries. The exception paths that return `{"error": ...}` are not modelled.
- Screen-size and density analysis (`_analyze_screen_sizes`, `_analyze_density_support`, `_check_adaptive_layouts`): their booleans are inputs.
- Performance.MemoryOptimizer.ReturnToPool: the object's `clear()` on return is not modelled. Pooled objects are values, so the model does not capture aliasing or in-place mutation.
- Performance.MemoryOptimizer.GetFromPool: the factory call is a parameter holding its result.
- Garbage collection, lazy loading and memory monitoring in `MemoryOptimizer`, and the battery, network, startup and monitoring classes: they only produce fixed configuration reports.
- Performance.Evict: this is the corrected eviction, used only to state what the code evidently intends. For a negative memory limit it keeps nothing. The code as written (`EvictAsWritten`, which `OptimizeMemoryCache` follows) then deletes the min(n, 256·|limit|) oldest entries and reports n + 256·|limit| removed, more than existed.
- Compatibility.Missing: `set(targets) - set(supported)` has no defined order in Python, because string hashing varies between runs. The model lists the missing targets in target order, so the missing-support advice text is one of the orders Python may print.
- TaskOrchestrator.PathBefore: paths are compared as Python 3.12 and later do, by splitting the normalised path string on `/`. Earlier versions compare the parts with the root as its own part. The two orders agree for paths under a common directory, and every listed path is under the task's output directory.

## Findings

| source | as written | input that shows it | evidently intended | confidence | as-written member | corrected member |
|---|---|---|---|---|---|---|
| orchestrator/app.py:90-93 | `_finalize_task` sets SUCCEEDED or FAILED whatever the task's current state | cancel an active task, then let its runner finish with rc 0 | a cancelled task stays CANCELLED | not executed | TaskOrchestrator.CancelledTaskRunsToCompletion | TaskOrchestrator.CancellationIsTerminal |
| orchestrator/app.py:232-239 | `create_task` copies the sample into the task's input and points `apk_path` at that copy, and the runner then copies `apk_path` onto the same destination (lines 184-185), which raises a same-file error | an android task whose `apk_path` does not exist, while the bundled sample does | the seeded input is used as the task's input | not executed | TaskOrchestrator.SeededAndroidTaskCrashes | TaskOrchestrator.SeededAndroidTaskRunsWhenFixed |
| orchestrator/performance_optimization.py:238-259 | `sorted_items[:-keep_count]` with `keep_count == 0` is empty, so nothing is deleted, yet `items_removed` reports the whole cache | a memory limit of 0 with a non-empty cache | with nothing to keep, every entry is evicted and the report matches | not executed | Performance.ZeroLimitEvictsNothing | Performance.EvictionAccounts |
