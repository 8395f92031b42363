/**
  lib/export-task.js: export tasks and their jobs in the triple store. A task
  is created busy together with its job, runs the export (`perform`), and is
  finished as success or failed; failed tasks are retried a bounded number
  of times; tasks left busy by a previous run are canceled at startup.

  Each SPARQL update is modelled by its effect on the store's records: the
  pure functions below (RetriedTasks, FinishedTasks, FinishedJobs,
  WithResults, CanceledTasks, ClearedJobs, …) say what an update does, and
  the methods that change the store are proved to have exactly that effect.
  Fresh uuids, timestamps and store failures are parameters.
*/
module ExportTasks {
  import opened Wrappers
  import opened Env
  import opened Store
  import opened Text
  import opened Files
  import ExportFiles
  import CsvExporter

  /**
    The value of `numberOfRetries` on a task object: a number when the code
    set it, the literal's text when it was copied from a query binding.
  */
  datatype RetriesValue = Number(n: nat) | Lexical(text: string)

  /** An `ExportTask` object: only the members its creator set are present. */
  datatype ExportTask = ExportTask(
    uri: Uri,
    id: string,
    isPartOf: Option<Uri>,
    status: Status,
    numberOfRetries: Option<RetriesValue>)

  /** The JSON:API document `toJsonApi` builds; an absent member is left out of the JSON. */
  datatype JsonApi = JsonApi(kind: string, id: string, uri: Uri, status: string, numberOfRetries: Option<RetriesValue>)

  /** `toJsonApi`: the task's identity, its status URI and its retry count under type `export-tasks`. */
  function ToJsonApi(task: ExportTask): (j: JsonApi)
    ensures j.kind == "export-tasks" && j.id == task.id && j.uri == task.uri
    ensures StatusOfUri(j.status) == Some(task.status)
    ensures j.numberOfRetries == task.numberOfRetries
  {
    StatusUriRoundTrip(task.status);
    JsonApi("export-tasks", task.id, task.uri, StatusUri(task.status), task.numberOfRetries)
  }

  function JobUri(jobId: string): Uri
  {
    JOB_URI_PREFIX + jobId
  }

  function TaskUri(taskId: string): Uri
  {
    TASK_URI_PREFIX + taskId
  }

  function ContainerUri(containerId: string): Uri
  {
    CONTAINER_URI_PREFIX + containerId
  }

  // ---------------------------------------------------------------------------
  // insertNewTask

  /** The job `insertNewTask` creates. */
  function NewJob(jobId: string, created: string): JobRecord
  {
    JobRecord(jobId, Some(Busy), JOB_OPERATION_URI, JOB_CREATOR_URI, created, JOBS_GRAPH)
  }

  /** The task `insertNewTask` creates; it has no retry counter. */
  function NewTask(taskId: string, jobId: string, created: string): TaskRecord
  {
    TaskRecord(taskId, Busy, None, JobUri(jobId), TASK_OPERATION_URI, "0", created, JOBS_GRAPH)
  }

  /** The two INSERT DATA updates of `insertNewTask`, in order; either may fail. */
  datatype InsertStep = CreateJob | CreateTask

  /**
    `insertNewTask`: inserts a busy job, then a busy task of the export
    operation with index "0" that is part of that job, both in the jobs
    graph, and returns the task object. When an update fails the error
    propagates and the later update is not sent.
  */
  method InsertNewTask(store: TripleStore, jobId: string, taskId: string, created: string, fault: Option<InsertStep>)
    returns (r: Result<ExportTask, InsertStep>)
    modifies store
    ensures fault == Some(CreateJob) ==> r == Failure(CreateJob) && store.jobs == old(store.jobs)
    ensures fault != Some(CreateJob) ==> store.jobs == old(store.jobs)[JobUri(jobId) := NewJob(jobId, created)]
    ensures fault == Some(CreateTask) ==> r == Failure(CreateTask) && store.tasks == old(store.tasks)
    ensures fault == None ==> store.tasks == old(store.tasks)[TaskUri(taskId) := NewTask(taskId, jobId, created)]
    ensures fault == None ==> r == Result.Success(ExportTask(TaskUri(taskId), taskId, Some(JobUri(jobId)), Busy, None))
    ensures fault.Some? ==> store.tasks == old(store.tasks)
    ensures store.containers == old(store.containers) && store.exportFiles == old(store.exportFiles)
  {
    var jobUri := JobUri(jobId);
    if fault.Some? && fault.value == CreateJob {
      return Failure(CreateJob);
    }
    store.jobs := store.jobs[jobUri := NewJob(jobId, created)];
    var taskUri := TaskUri(taskId);
    if fault.Some? {
      return Failure(fault.value);
    }
    store.tasks := store.tasks[taskUri := NewTask(taskId, jobId, created)];
    r := Result.Success(ExportTask(taskUri, taskId, Some(jobUri), Busy, None));
  }

  /**
    The records `insertNewTask` adds: a busy job and a busy task of the
    export operation, index "0", no retry counter, part of that job, both in
    the jobs graph.
  */
  lemma NewRecords(taskId: string, jobId: string, created: string)
    ensures var t, j := NewTask(taskId, jobId, created), NewJob(jobId, created);
      && t.status == Busy && j.status == Some(Busy)
      && t.index == "0" && t.operation == TASK_OPERATION_URI && t.retries == None
      && t.isPartOf == JobUri(jobId) && t.uuid == taskId && j.uuid == jobId
      && t.graph == JOBS_GRAPH && j.graph == JOBS_GRAPH
  {
  }

  // ---------------------------------------------------------------------------
  // isExportRunning

  /** Some task of the export operation is busy (the ASK query of `isExportRunning`). */
  predicate ExportRunning(tasks: map<Uri, TaskRecord>)
  {
    exists u :: u in tasks && tasks[u].operation == TASK_OPERATION_URI && tasks[u].status == Busy
  }

  /** `isExportRunning`: the ASK query over the jobs graph, evaluated on the store's tasks. */
  method IsExportRunning(store: TripleStore) returns (running: bool)
    ensures running == ExportRunning(store.tasks)
  {
    running := exists u :: u in store.tasks && store.tasks[u].operation == TASK_OPERATION_URI && store.tasks[u].status == Busy;
  }

  /** A newly inserted task makes an export run, and it adds exactly one task when its uuid is fresh. */
  lemma InsertMakesRunning(tasks: map<Uri, TaskRecord>, taskId: string, jobId: string, created: string)
    ensures ExportRunning(tasks[TaskUri(taskId) := NewTask(taskId, jobId, created)])
    ensures TaskUri(taskId) !in tasks ==> |tasks[TaskUri(taskId) := NewTask(taskId, jobId, created)]| == |tasks| + 1
  {
    var u := TaskUri(taskId);
    var after := tasks[u := NewTask(taskId, jobId, created)];
    assert after[u].operation == TASK_OPERATION_URI && after[u].status == Busy;
  }

  /** Busy tasks of other operations do not count as a running export. */
  lemma OtherOperationsDoNotBlock(tasks: map<Uri, TaskRecord>)
    requires forall u :: u in tasks && tasks[u].status == Busy ==> tasks[u].operation != TASK_OPERATION_URI
    ensures !ExportRunning(tasks)
  {
  }

  // ---------------------------------------------------------------------------
  // retry

  /**
    The effect of `retry`'s update (`WITH` the jobs graph): a task whose
    status lives in the jobs graph becomes busy and its counter goes from
    absent to 1 or from n to n + 1; nothing happens to a task elsewhere.
  */
  function RetriedTasks(tasks: map<Uri, TaskRecord>, uri: Uri): map<Uri, TaskRecord>
  {
    if uri in tasks && tasks[uri].graph == JOBS_GRAPH
    then tasks[uri := tasks[uri].(status := Busy, retries := Some(tasks[uri].retries.GetOr(0) + 1))]
    else tasks
  }

  /**
    The first half of `retry`: reads the task's retry counter, then sends
    the update that fits (with or without a counter to delete). The job's
    status is not touched, so it keeps whatever the failed run left.
  */
  method BumpRetries(store: TripleStore, task: ExportTask)
    modifies store
    ensures store.tasks == RetriedTasks(old(store.tasks), task.uri)
    ensures store.jobs == old(store.jobs)
    ensures store.containers == old(store.containers) && store.exportFiles == old(store.exportFiles)
  {
    var stored := if task.uri in store.tasks then store.tasks[task.uri].retries else None;
    var matches := task.uri in store.tasks && store.tasks[task.uri].graph == JOBS_GRAPH;
    if stored.None? {
      var retries := 0;
      if matches {
        store.tasks := store.tasks[task.uri := store.tasks[task.uri].(status := Busy, retries := Some(retries + 1))];
      }
    } else {
      var retries := stored.value;
      if matches {
        store.tasks := store.tasks[task.uri := store.tasks[task.uri].(status := Busy, retries := Some(retries + 1))];
      }
    }
  }

  /** A retry raises the counter by one exactly for a task in the jobs graph, and touches no other task. */
  lemma RetryCounts(tasks: map<Uri, TaskRecord>, uri: Uri)
    ensures RetriedTasks(tasks, uri).Keys == tasks.Keys
    ensures forall v :: v in tasks && v != uri ==> RetriedTasks(tasks, uri)[v] == tasks[v]
    ensures uri in tasks && tasks[uri].graph == JOBS_GRAPH ==>
      && RetriedTasks(tasks, uri)[uri].retries == Some(tasks[uri].retries.GetOr(0) + 1)
      && RetriedTasks(tasks, uri)[uri].status == Busy
    ensures uri in tasks && tasks[uri].graph != JOBS_GRAPH ==> RetriedTasks(tasks, uri)[uri] == tasks[uri]
  {
  }

  // ---------------------------------------------------------------------------
  // getTasksThatCanBeRetried

  /** A failed task with no counter or a counter below NUMBER_OF_RETRIES. */
  predicate CanBeRetried(t: TaskRecord)
  {
    t.status == Failed && (t.retries.None? || t.retries.value < MAX_NUMBER_OF_RETRIES)
  }

  /** The object `getTasksThatCanBeRetried` builds for a task: marked failed, no counter. */
  function FailedTask(uri: Uri, t: TaskRecord): ExportTask
  {
    ExportTask(uri, t.uuid, Some(t.isPartOf), Failed, None)
  }

  function Retriable(tasks: map<Uri, TaskRecord>): set<ExportTask>
  {
    set u | u in tasks && CanBeRetried(tasks[u]) :: FailedTask(u, tasks[u])
  }

  /**
    `getTasksThatCanBeRetried`: every retriable task once, in the order the
    store happens to return them, each as a failed task object.
  */
  method GetTasksThatCanBeRetried(store: TripleStore) returns (found: seq<ExportTask>)
    ensures forall i :: 0 <= i < |found| ==>
      found[i].uri in store.tasks && CanBeRetried(store.tasks[found[i].uri])
      && found[i] == FailedTask(found[i].uri, store.tasks[found[i].uri])
    ensures forall u :: u in store.tasks && CanBeRetried(store.tasks[u]) ==> FailedTask(u, store.tasks[u]) in found
    ensures forall i, j :: 0 <= i < j < |found| ==> found[i].uri != found[j].uri
  {
    found := [];
    var rest := store.tasks.Keys;
    while rest != {}
      invariant rest <= store.tasks.Keys
      invariant forall i :: 0 <= i < |found| ==>
        found[i].uri in store.tasks && found[i].uri !in rest && CanBeRetried(store.tasks[found[i].uri])
        && found[i] == FailedTask(found[i].uri, store.tasks[found[i].uri])
      invariant forall u :: u in store.tasks && u !in rest && CanBeRetried(store.tasks[u]) ==> FailedTask(u, store.tasks[u]) in found
      invariant forall i, j :: 0 <= i < j < |found| ==> found[i].uri != found[j].uri
      decreases rest
    {
      var u :| u in rest;
      if CanBeRetried(store.tasks[u]) {
        found := found + [FailedTask(u, store.tasks[u])];
      }
      rest := rest - {u};
    }
  }

  /** Every task's retry counter stays within NUMBER_OF_RETRIES. */
  predicate CountersBounded(tasks: map<Uri, TaskRecord>)
  {
    forall u :: u in tasks ==> tasks[u].retries.GetOr(0) <= MAX_NUMBER_OF_RETRIES
  }

  /**
    Retrying a retriable task keeps every counter within the limit; a task
    whose counter reached the limit is never retriable again, so a task is
    run at most 1 + NUMBER_OF_RETRIES times.
  */
  lemma RetryKeepsBound(tasks: map<Uri, TaskRecord>, uri: Uri)
    requires CountersBounded(tasks)
    requires uri in tasks ==> CanBeRetried(tasks[uri])
    ensures CountersBounded(RetriedTasks(tasks, uri))
    ensures forall u :: u in tasks && tasks[u].retries == Some(MAX_NUMBER_OF_RETRIES) ==> !CanBeRetried(tasks[u])
  {
    var after := RetriedTasks(tasks, uri);
    forall u | u in after
      ensures after[u].retries.GetOr(0) <= MAX_NUMBER_OF_RETRIES
    {
      if u == uri && tasks[uri].graph == JOBS_GRAPH {
        assert tasks[uri].retries.GetOr(0) < MAX_NUMBER_OF_RETRIES;
      }
    }
  }

  // ---------------------------------------------------------------------------
  // finishTask

  function FinishStatus(failed: bool): Status
  {
    if failed then Failed else Status.Success
  }

  /** The task update of `finishTask`: the task's status, wherever it is, becomes `status`. */
  function FinishedTasks(tasks: map<Uri, TaskRecord>, uri: Uri, status: Status): map<Uri, TaskRecord>
  {
    if uri in tasks then tasks[uri := tasks[uri].(status := status)] else tasks
  }

  /** The job update of `finishTask`: a job that has a status gets `status`; a job without one keeps none. */
  function FinishedJobs(jobs: map<Uri, JobRecord>, job: Uri, status: Status): map<Uri, JobRecord>
  {
    if job in jobs && jobs[job].status.Some? then jobs[job := jobs[job].(status := Some(status))] else jobs
  }

  /** The container insert of `finishTask`: only with files, and only for a task in the store. */
  function WithResults(containers: map<Uri, Container>, tasks: map<Uri, TaskRecord>, uri: Uri,
                       containerId: string, files: seq<Uri>): map<Uri, Container>
  {
    if |files| > 0 && uri in tasks
    then containers[ContainerUri(containerId) := Container(containerId, uri, files, tasks[uri].graph)]
    else containers
  }

  /** The URIs of the export files a task finishes with, in order. */
  function FileUris(files: seq<ExportFiles.ExportFile>): seq<Uri>
  {
    seq(|files|, i requires 0 <= i < |files| => files[i].uri)
  }

  /** One `task:hasFile` triple of the container insert, URIs written in angle brackets. */
  function HasFileTriple(containerUri: Uri, fileUri: Uri): string
  {
    "<" + containerUri + "> task:hasFile <" + fileUri + "> ."
  }

  function HasFileLines(containerUri: Uri, fileUris: seq<Uri>): seq<string>
  {
    seq(|fileUris|, i requires 0 <= i < |fileUris| => HasFileTriple(containerUri, fileUris[i]))
  }

  /** The `hasFile` triples `finishTask` splices into its container insert, one line per file. */
  function DataObjectTriples(containerUri: Uri, fileUris: seq<Uri>): string
  {
    Join(HasFileLines(containerUri, fileUris), "\n")
  }

  /**
    The container insert links every file exactly once, in order: read back
    line by line, its `hasFile` block has one triple per file, the i-th
    naming the i-th file.
  */
  lemma DataObjectTriplesLines(containerUri: Uri, fileUris: seq<Uri>)
    requires |fileUris| >= 1
    requires '\n' !in containerUri && forall i :: 0 <= i < |fileUris| ==> '\n' !in fileUris[i]
    ensures var lines := Split(DataObjectTriples(containerUri, fileUris), '\n');
      && |lines| == |fileUris|
      && forall i :: 0 <= i < |fileUris| ==> lines[i] == HasFileTriple(containerUri, fileUris[i])
  {
    var lines := HasFileLines(containerUri, fileUris);
    forall i | 0 <= i < |lines|
      ensures '\n' !in lines[i]
    {
      assert lines[i] == "<" + containerUri + "> task:hasFile <" + fileUris[i] + "> .";
      assert forall k :: 0 <= k < |lines[i]| ==> lines[i][k] != '\n';
    }
    SplitJoin(lines, '\n');
  }

  /**
    `finishTask`: with files, inserts a results container linked from the
    task with one `hasFile` per file; then sets the task's status and the
    job's existing status to failed or success. The container stores the
    file URIs as a list because the inserted `hasFile` block reads back as
    exactly that list, one triple per file in order (`DataObjectTriplesLines`).
  */
  method FinishTask(store: TripleStore, task: ExportTask, files: seq<ExportFiles.ExportFile>, failed: bool, containerId: string)
    requires task.isPartOf.Some?
    modifies store
    ensures store.containers == WithResults(old(store.containers), old(store.tasks), task.uri, containerId, FileUris(files))
    ensures store.tasks == FinishedTasks(old(store.tasks), task.uri, FinishStatus(failed))
    ensures store.jobs == FinishedJobs(old(store.jobs), task.isPartOf.value, FinishStatus(failed))
    ensures store.exportFiles == old(store.exportFiles)
  {
    var status := FinishStatus(failed);
    if |files| > 0 {
      var containerUri := ContainerUri(containerId);
      var hasFiles := FileUris(files);
      if task.uri in store.tasks {
        store.containers := store.containers[containerUri := Container(containerId, task.uri, hasFiles, store.tasks[task.uri].graph)];
      }
    }
    if task.uri in store.tasks {
      store.tasks := store.tasks[task.uri := store.tasks[task.uri].(status := status)];
    }
    var job := task.isPartOf.value;
    if job in store.jobs && store.jobs[job].status.Some? {
      store.jobs := store.jobs[job := store.jobs[job].(status := Some(status))];
    }
  }

  /**
    After `finishTask` the task and its job (when the job still has a
    status) hold the same status, failed exactly when `failed`, and the
    retry counters are untouched.
  */
  lemma FinishAgrees(tasks: map<Uri, TaskRecord>, jobs: map<Uri, JobRecord>, uri: Uri, job: Uri, failed: bool)
    requires uri in tasks
    ensures var ts, js := FinishedTasks(tasks, uri, FinishStatus(failed)), FinishedJobs(jobs, job, FinishStatus(failed));
      && (ts[uri].status == Failed <==> failed)
      && (job in jobs && jobs[job].status.Some? ==> js[job].status == Some(ts[uri].status))
      && (job in jobs && jobs[job].status.None? ==> js[job].status.None?)
      && ts.Keys == tasks.Keys
      && forall v :: v in tasks ==> ts[v].retries == tasks[v].retries
  {
  }

  /** A container is created exactly when there are files and the task exists, with one link per file. */
  lemma ResultsOnlyWithFiles(containers: map<Uri, Container>, tasks: map<Uri, TaskRecord>, uri: Uri, containerId: string, files: seq<Uri>)
    requires ContainerUri(containerId) !in containers
    ensures var cs := WithResults(containers, tasks, uri, containerId, files);
      && (ContainerUri(containerId) in cs <==> |files| > 0 && uri in tasks)
      && (ContainerUri(containerId) in cs ==> cs[ContainerUri(containerId)].task == uri && cs[ContainerUri(containerId)].files == files)
      && forall c :: c in containers ==> c in cs && cs[c] == containers[c]
  {
  }

  /** Finishing the only busy export task ends the running export, whatever the outcome. */
  lemma FinishUnblocks(tasks: map<Uri, TaskRecord>, uri: Uri, failed: bool)
    requires forall u :: u in tasks && u != uri && tasks[u].operation == TASK_OPERATION_URI ==> tasks[u].status != Busy
    ensures !ExportRunning(FinishedTasks(tasks, uri, FinishStatus(failed)))
  {
  }

  // ---------------------------------------------------------------------------
  // perform

  /** What one run of `perform` gets from outside: the clock, fresh uuids, and whether an I/O step throws. */
  datatype PerformRun = PerformRun(isoTime: string, fileId: string, created: string, containerId: string, ioFault: bool)

  /** The characters the file name drops from the ISO timestamp. */
  const STAMP_SEPARATORS: set<char> := {'-', 'T', 'Z', ':', '.'}

  /** The CSV file a run writes: the export base, a dash, the compacted timestamp, `.csv`, in the output directory. */
  function CsvFile(isoTime: string): Path
  {
    FILE_OUTPUT_DIR + "/" + EXPORT_FILE_BASE + "-" + Without(isoTime, STAMP_SEPARATORS) + ".csv"
  }

  /** The compacted timestamp has no `/` when the timestamp has none. */
  lemma StampHasNoSlash(isoTime: string)
    requires '/' !in isoTime
    ensures '/' !in Without(isoTime, STAMP_SEPARATORS)
  {
    WithoutKeepsOthers(isoTime, STAMP_SEPARATORS, '/');
    assert multiset(isoTime)['/'] == 0;
  }

  lemma JoinedPath(dir: string, base: string, stamp: string, extension: string)
    ensures dir + "/" + base + "-" + stamp + extension == dir + "/" + (base + "-" + stamp + extension)
  {
  }

  /** The file record of a run names the CSV file by its base name. */
  lemma CsvFileBasename(isoTime: string)
    requires '/' !in isoTime
    ensures ExportFiles.Basename(CsvFile(isoTime)) == EXPORT_FILE_BASE + "-" + Without(isoTime, STAMP_SEPARATORS) + ".csv"
  {
    var name := EXPORT_FILE_BASE + "-" + Without(isoTime, STAMP_SEPARATORS) + ".csv";
    StampHasNoSlash(isoTime);
    assert '/' !in name;
    JoinedPath(FILE_OUTPUT_DIR, EXPORT_FILE_BASE, Without(isoTime, STAMP_SEPARATORS), ".csv");
    ExportFiles.BasenameOfJoin(FILE_OUTPUT_DIR, name);
  }

  /** The CSV file of a run and its temporary file are never the configured query file. */
  lemma CsvFileIsNotConfig(isoTime: string)
    ensures CsvFile(isoTime) != CSV_EXPORT_SPARQL_FILE && Tmp(CsvFile(isoTime)) != CSV_EXPORT_SPARQL_FILE
  {
    var f := CsvFile(isoTime);
    assert f[1] == FILE_OUTPUT_DIR[1] == 's';
    assert Tmp(f)[1] == f[1];
    assert CSV_EXPORT_SPARQL_FILE[1] == 'c';
  }

  /** The endpoint serves the configured CSV query whenever that file is present. */
  predicate ServesCsvConfig(fs: map<Path, seq<string>>, endpoint: CsvExporter.SliceEndpoint)
  {
    CSV_EXPORT_SPARQL_FILE in fs ==> endpoint.query == Flatten(fs[CSV_EXPORT_SPARQL_FILE]) && endpoint.Valid()
  }

  /** Whether a run of `perform` produces the CSV export: the query file exists and no I/O step throws. */
  predicate PerformSucceeds(fs: map<Path, seq<string>>, run: PerformRun)
  {
    CSV_EXPORT_SPARQL_FILE in fs && !run.ioFault
  }

  /**
    `perform`: ends in exactly one `finishTask`. With the CSV query file
    present it exports the CSV file, records it, and finishes the task as
    success with that one file. Without it, the warning's template names an
    undefined variable, the ReferenceError is caught, and the task finishes
    failed with no files; the Turtle export after it is never reached. An
    I/O error in the CSV branch also finishes the task failed with no files.
  */
  method Perform(store: TripleStore, fs: FileSystem, task: ExportTask, endpoint: CsvExporter.SliceEndpoint, run: PerformRun)
    requires task.isPartOf.Some?
    requires ServesCsvConfig(fs.files, endpoint)
    modifies store, fs
    ensures var ok, csvFile := PerformSucceeds(old(fs.files), run), CsvFile(run.isoTime);
      && fs.files == (if ok then (old(fs.files) - {Tmp(csvFile)})[csvFile := old(fs.Contents(Tmp(csvFile))) + CsvExporter.CsvOutput(endpoint)]
                      else old(fs.files))
      && store.exportFiles == (if ok then old(store.exportFiles)[ExportFiles.ExportUri(run.fileId) :=
                                 FileRecord(run.fileId, ExportFiles.Basename(csvFile), "text/csv", |Flatten(fs.files[csvFile])|, run.created)]
                               else old(store.exportFiles))
      && store.tasks == FinishedTasks(old(store.tasks), task.uri, FinishStatus(!ok))
      && store.jobs == FinishedJobs(old(store.jobs), task.isPartOf.value, FinishStatus(!ok))
      && store.containers == WithResults(old(store.containers), old(store.tasks), task.uri, run.containerId,
                                         if ok then [ExportFiles.ExportUri(run.fileId)] else [])
  {
    var filename := EXPORT_FILE_BASE + "-" + Without(run.isoTime, STAMP_SEPARATORS);
    if CSV_EXPORT_SPARQL_FILE in fs.files {
      var csvFile := FILE_OUTPUT_DIR + "/" + filename + ".csv";
      assert csvFile == CsvFile(run.isoTime);
      if run.ioFault {
        FinishTask(store, task, [], true, run.containerId);
      } else {
        ghost var sent := CsvExporter.ExportAsync(fs, csvFile, endpoint);
        var f := ExportFiles.InsertNewExportFile(store, csvFile, "text/csv", run.fileId, run.created, |Flatten(fs.files[csvFile])|);
        assert FileUris([f]) == [ExportFiles.ExportUri(run.fileId)];
        FinishTask(store, task, [f], false, run.containerId);
      }
    } else {
      // the warning's template literal reads an undefined name: ReferenceError, caught below
      FinishTask(store, task, [], true, run.containerId);
    }
  }

  /**
    `retry`: raises the task's retry counter and marks it busy, then runs
    `perform` again; the job's status is left as the failed run set it
    until `perform` finishes the task.
  */
  method Retry(store: TripleStore, fs: FileSystem, task: ExportTask, endpoint: CsvExporter.SliceEndpoint, run: PerformRun)
    requires task.isPartOf.Some?
    requires ServesCsvConfig(fs.files, endpoint)
    modifies store, fs
    ensures var ok, csvFile := PerformSucceeds(old(fs.files), run), CsvFile(run.isoTime);
      && fs.files == (if ok then (old(fs.files) - {Tmp(csvFile)})[csvFile := old(fs.Contents(Tmp(csvFile))) + CsvExporter.CsvOutput(endpoint)]
                      else old(fs.files))
      && store.exportFiles == (if ok then old(store.exportFiles)[ExportFiles.ExportUri(run.fileId) :=
                                 FileRecord(run.fileId, ExportFiles.Basename(csvFile), "text/csv", |Flatten(fs.files[csvFile])|, run.created)]
                               else old(store.exportFiles))
      && store.tasks == FinishedTasks(RetriedTasks(old(store.tasks), task.uri), task.uri, FinishStatus(!ok))
      && store.jobs == FinishedJobs(old(store.jobs), task.isPartOf.value, FinishStatus(!ok))
      && store.containers == WithResults(old(store.containers), RetriedTasks(old(store.tasks), task.uri), task.uri, run.containerId,
                                         if ok then [ExportFiles.ExportUri(run.fileId)] else [])
    ensures forall p :: p != CsvFile(run.isoTime) && p != Tmp(CsvFile(run.isoTime)) ==>
      (p in fs.files <==> p in old(fs.files)) && (p in fs.files ==> fs.files[p] == old(fs.files)[p])
  {
    BumpRetries(store, task);
    Perform(store, fs, task, endpoint, run);
  }

  // ---------------------------------------------------------------------------
  // cleanup

  /**
    A task the cleanup update matches: busy, and part of a job that has a
    status in the task's graph.
  */
  predicate Cancelable(t: TaskRecord, jobs: map<Uri, JobRecord>)
  {
    t.status == Busy && t.isPartOf in jobs && jobs[t.isPartOf].status.Some? && jobs[t.isPartOf].graph == t.graph
  }

  /** Some task the cleanup update matches is part of job `j`. */
  predicate HasCancelableTask(tasks: map<Uri, TaskRecord>, jobs: map<Uri, JobRecord>, j: Uri)
  {
    exists u :: u in tasks && tasks[u].isPartOf == j && Cancelable(tasks[u], jobs)
  }

  /** The task half of the cleanup update: every matched task becomes canceled. */
  function CanceledTasks(tasks: map<Uri, TaskRecord>, jobs: map<Uri, JobRecord>): map<Uri, TaskRecord>
  {
    map u | u in tasks :: if Cancelable(tasks[u], jobs) then tasks[u].(status := Canceled) else tasks[u]
  }

  /**
    The job half of the cleanup update: the matched job's status is deleted.
    The INSERT template names `?jobs`, which the WHERE clause never binds,
    so no canceled status is written for the job.
  */
  function ClearedJobs(tasks: map<Uri, TaskRecord>, jobs: map<Uri, JobRecord>): map<Uri, JobRecord>
  {
    map j | j in jobs :: if HasCancelableTask(tasks, jobs, j) then jobs[j].(status := None) else jobs[j]
  }

  /**
    `cleanup`: when some task is busy, sends the update that cancels the
    busy tasks whose job has a status and deletes that status.
  */
  method Cleanup(store: TripleStore)
    modifies store
    ensures store.tasks == CanceledTasks(old(store.tasks), old(store.jobs))
    ensures store.jobs == ClearedJobs(old(store.tasks), old(store.jobs))
    ensures store.containers == old(store.containers) && store.exportFiles == old(store.exportFiles)
  {
    var anyBusy := exists u :: u in store.tasks && store.tasks[u].status == Busy;
    if anyBusy {
      var tasks, jobs := store.tasks, store.jobs;
      store.tasks := CanceledTasks(tasks, jobs);
      store.jobs := ClearedJobs(tasks, jobs);
    } else {
      CleanupWithoutBusy(store.tasks, store.jobs);
    }
  }

  /** With no busy task the cleanup update would match nothing, so skipping it changes nothing. */
  lemma CleanupWithoutBusy(tasks: map<Uri, TaskRecord>, jobs: map<Uri, JobRecord>)
    requires forall u :: u in tasks ==> tasks[u].status != Busy
    ensures CanceledTasks(tasks, jobs) == tasks
    ensures ClearedJobs(tasks, jobs) == jobs
  {
    assert forall j :: j in jobs ==> !HasCancelableTask(tasks, jobs, j);
  }

  /**
    Cleanup never writes a canceled status for a job: each job keeps its
    status or loses it. A task becomes canceled exactly when it was matched,
    and no retry counter changes.
  */
  lemma CleanupEffect(tasks: map<Uri, TaskRecord>, jobs: map<Uri, JobRecord>)
    ensures var ts, js := CanceledTasks(tasks, jobs), ClearedJobs(tasks, jobs);
      && ts.Keys == tasks.Keys && js.Keys == jobs.Keys
      && (forall j :: j in jobs ==> js[j].status == jobs[j].status || js[j].status.None?)
      && (forall j :: j in jobs && jobs[j].status != Some(Canceled) ==> js[j].status != Some(Canceled))
      && (forall u :: u in tasks ==> (ts[u].status == Canceled <==> tasks[u].status == Canceled || Cancelable(tasks[u], jobs)))
      && (forall u :: u in tasks ==> ts[u].retries == tasks[u].retries)
  {
  }

  /**
    Cleanup ends a running export when every busy export task has a job
    with a status in its graph; a busy task whose job has no status there
    stays busy and keeps blocking new exports.
  */
  lemma CleanupUnblocks(tasks: map<Uri, TaskRecord>, jobs: map<Uri, JobRecord>)
    ensures (forall u :: u in tasks && tasks[u].status == Busy && tasks[u].operation == TASK_OPERATION_URI ==> Cancelable(tasks[u], jobs))
            ==> !ExportRunning(CanceledTasks(tasks, jobs))
    ensures (exists u :: u in tasks && tasks[u].status == Busy && tasks[u].operation == TASK_OPERATION_URI && !Cancelable(tasks[u], jobs))
            ==> ExportRunning(CanceledTasks(tasks, jobs))
  {
    if exists u :: u in tasks && tasks[u].status == Busy && tasks[u].operation == TASK_OPERATION_URI && !Cancelable(tasks[u], jobs) {
      var u :| u in tasks && tasks[u].status == Busy && tasks[u].operation == TASK_OPERATION_URI && !Cancelable(tasks[u], jobs);
      assert CanceledTasks(tasks, jobs)[u] == tasks[u];
    }
  }

  /** Once cleanup has deleted a job's status, finishing its task no longer gives the job a status. */
  lemma FinishAfterCleanup(tasks: map<Uri, TaskRecord>, jobs: map<Uri, JobRecord>, j: Uri, status: Status)
    requires j in jobs && HasCancelableTask(tasks, jobs, j)
    ensures FinishedJobs(ClearedJobs(tasks, jobs), j, status)[j].status.None?
  {
  }

  // ---------------------------------------------------------------------------
  // exportTaskByUuid

  /**
    The object `exportTaskByUuid` builds: no `isPartOf`, and the counter as
    the text of the stored literal, or the number 0 when there is none.
  */
  function FoundTask(uri: Uri, t: TaskRecord): ExportTask
  {
    ExportTask(uri, t.uuid, None, t.status,
               Some(if t.retries.Some? then Lexical(Decimal(t.retries.value)) else Number(0)))
  }

  /** The number a client reads from the `numberOfRetries` member. */
  function RetriesRead(v: RetriesValue): nat
  {
    match v
    case Number(n) => n
    case Lexical(text) => if IsDecimal(text) then ParseDecimal(text) else 0
  }

  /** `exportTaskByUuid`: some task with that uuid, or nothing when there is none. */
  method ExportTaskByUuid(store: TripleStore, uuid: string) returns (r: Option<ExportTask>)
    ensures r.None? <==> !exists u :: u in store.tasks && store.tasks[u].uuid == uuid
    ensures r.Some? ==> r.value.uri in store.tasks && store.tasks[r.value.uri].uuid == uuid
                        && r.value == FoundTask(r.value.uri, store.tasks[r.value.uri])
  {
    if exists u :: u in store.tasks && store.tasks[u].uuid == uuid {
      var u :| u in store.tasks && store.tasks[u].uuid == uuid;
      var t := store.tasks[u];
      var retries := if t.retries.Some? then Lexical(Decimal(t.retries.value)) else Number(0);
      r := Some(ExportTask(u, uuid, None, t.status, Some(retries)));
    } else {
      r := None;
    }
  }

  /**
    What GET reports for a stored task reads back as the stored status and
    the stored counter (0 when absent).
  */
  lemma FoundTaskReportsStore(uri: Uri, t: TaskRecord)
    ensures var j := ToJsonApi(FoundTask(uri, t));
      && j.id == t.uuid && j.uri == uri
      && StatusOfUri(j.status) == Some(t.status)
      && j.numberOfRetries.Some? && RetriesRead(j.numberOfRetries.value) == t.retries.GetOr(0)
  {
    if t.retries.Some? {
      ParseDecimalOf(t.retries.value);
    }
  }
}
