/**
  app.js: the HTTP handlers and scheduled jobs of the service. POST
  /export-tasks starts an export unless one is running, GET
  /export-tasks/:id reports a task, a scheduled sweep retries failed tasks
  one after another, and a cleanup runs when the service loads.
*/
module App {
  import opened Wrappers
  import opened Env
  import opened Store
  import opened Files
  import opened ExportTasks
  import CsvExporter

  /** The responses the handlers send; `Forwarded` is an error passed to the error handler. */
  datatype Response =
    | Accepted(location: string)
    | ServiceUnavailable
    | Forwarded(error: InsertStep)
    | Ok(body: JsonApi)
    | NotFound

  /**
    POST /export-tasks: 503 and no new task while an export runs; otherwise
    a new task and 202 with its location, or the insertion error forwarded.
    `started` is the task whose `perform` the handler starts without
    awaiting it; the response is sent before that export does anything.
  */
  method PostExportTasks(store: TripleStore, jobId: string, taskId: string, created: string, fault: Option<InsertStep>)
    returns (resp: Response, started: Option<ExportTask>)
    modifies store
    ensures ExportRunning(old(store.tasks)) ==>
      && resp == ServiceUnavailable && started == None
      && store.tasks == old(store.tasks) && store.jobs == old(store.jobs)
    ensures !ExportRunning(old(store.tasks)) && fault == None ==>
      && resp == Accepted("/export-tasks/" + taskId)
      && started == Some(ExportTask(TaskUri(taskId), taskId, Some(JobUri(jobId)), Busy, None))
      && store.tasks == old(store.tasks)[TaskUri(taskId) := NewTask(taskId, jobId, created)]
    ensures !ExportRunning(old(store.tasks)) && fault.Some? ==>
      && resp == Forwarded(fault.value) && started == None
      && store.tasks == old(store.tasks)
    ensures !ExportRunning(old(store.tasks)) && fault != Some(CreateJob) ==>
      store.jobs == old(store.jobs)[JobUri(jobId) := NewJob(jobId, created)]
    ensures fault == Some(CreateJob) ==> store.jobs == old(store.jobs)
    ensures store.containers == old(store.containers) && store.exportFiles == old(store.exportFiles)
  {
    var running := IsExportRunning(store);
    if running {
      return ServiceUnavailable, None;
    }
    assert fault.Some? ==> fault.value.CreateJob? || fault.value.CreateTask?;
    var inserted := InsertNewTask(store, jobId, taskId, created, fault);
    match inserted
    case Success(task) =>
      resp, started := Accepted("/export-tasks/" + task.id), Some(task);
    case Failure(step) =>
      resp, started := Forwarded(step), None;
  }

  /**
    Two POSTs in a row, the export started by the first still running: once
    the first is accepted, or refused because an export runs, the second is
    refused, whatever ids and faults it meets.
  */
  method SecondPostRefused(store: TripleStore, jobId: string, taskId: string, fault: Option<InsertStep>,
                           jobId2: string, taskId2: string, fault2: Option<InsertStep>, created: string)
    returns (first: Response, second: Response)
    modifies store
    ensures first.Accepted? || first.ServiceUnavailable? ==> second == ServiceUnavailable
    ensures first.Accepted? ==> first.location == "/export-tasks/" + taskId
  {
    ghost var tasks := store.tasks;
    var started;
    first, started := PostExportTasks(store, jobId, taskId, created, fault);
    if first.Accepted? {
      InsertMakesRunning(tasks, taskId, jobId, created);
    }
    second, started := PostExportTasks(store, jobId2, taskId2, created, fault2);
  }

  /** GET /export-tasks/:id: the JSON:API document of a task with that uuid, or 404. */
  method GetExportTask(store: TripleStore, id: string) returns (resp: Response)
    ensures resp.NotFound? <==> !exists u :: u in store.tasks && store.tasks[u].uuid == id
    ensures !resp.NotFound? ==> resp.Ok? && exists u :: u in store.tasks && store.tasks[u].uuid == id
                                             && resp.body == ToJsonApi(FoundTask(u, store.tasks[u]))
  {
    var found := ExportTaskByUuid(store, id);
    if found.Some? {
      resp := Ok(ToJsonApi(found.value));
    } else {
      resp := NotFound;
    }
  }

  /** The counter a retry leaves: one more for a task in the jobs graph, unchanged elsewhere. */
  function Bumped(t: TaskRecord): Option<nat>
  {
    if t.graph == JOBS_GRAPH then Some(t.retries.GetOr(0) + 1) else t.retries
  }

  /** A task the sweep retried: it ended failed or successful, and only its status and counter changed. */
  ghost predicate RetriedOnce(tasks0: map<Uri, TaskRecord>, tasks: map<Uri, TaskRecord>, u: Uri)
  {
    && u in tasks0 && u in tasks
    && (tasks[u].status == Failed || tasks[u].status == Status.Success)
    && tasks[u] == tasks0[u].(status := tasks[u].status, retries := Bumped(tasks0[u]))
  }

  /** `m` agrees with `m0` on every key outside `keys`, present or absent. */
  ghost predicate SameOutside<K(!new), V>(m0: map<K, V>, m: map<K, V>, keys: set<K>)
  {
    forall x :: x !in keys ==> (x in m <==> x in m0) && (x in m ==> m[x] == m0[x])
  }

  /** The jobs of the first `n` retried tasks. */
  ghost function JobsOfFirst(retried: seq<ExportTask>, n: nat): set<Uri>
    requires n <= |retried|
  {
    if n == 0 then {}
    else JobsOfFirst(retried, n - 1) + (if retried[n - 1].isPartOf.Some? then {retried[n - 1].isPartOf.value} else {})
  }

  /** The index of the last of the first `n` retried tasks that is part of job `j`, if any. */
  ghost function LastRetryOf(retried: seq<ExportTask>, j: Uri, n: nat): (r: Option<nat>)
    requires n <= |retried|
    ensures r.Some? ==> r.value < n && retried[r.value].isPartOf == Some(j)
    ensures r.None? ==> forall k :: 0 <= k < n ==> retried[k].isPartOf != Some(j)
  {
    if n == 0 then None
    else if retried[n - 1].isPartOf == Some(j) then Some(n - 1)
    else LastRetryOf(retried, j, n - 1)
  }

  /** The container URIs the first `n` runs may create. */
  ghost function RunContainers(run: nat -> PerformRun, n: nat): set<Uri>
  {
    if n == 0 then {} else RunContainers(run, n - 1) + {ContainerUri(run(n - 1).containerId)}
  }

  /** The export-file URIs the first `n` runs may record. */
  ghost function RunExports(run: nat -> PerformRun, n: nat): set<Uri>
  {
    if n == 0 then {} else RunExports(run, n - 1) + {ExportFiles.ExportUri(run(n - 1).fileId)}
  }

  /** The paths the first `n` runs may write: each one's CSV file and its temporary file. */
  ghost function RunPaths(run: nat -> PerformRun, n: nat): set<Path>
  {
    if n == 0 then {} else RunPaths(run, n - 1) + {CsvFile(run(n - 1).isoTime), Tmp(CsvFile(run(n - 1).isoTime))}
  }

  /**
    The retry sweep: fetches the retriable tasks and retries each in turn,
    awaiting one before the next; `run(i)` is what the i-th retry's export
    gets from outside. Every retriable task is retried once, in the order
    returned, and ends failed or successful as its own run decides, with
    its counter raised; no counter passes
    NUMBER_OF_RETRIES; nothing else changes but the jobs of those tasks,
    and the containers, export records and files of the runs.
  */
  method RetrySweep(store: TripleStore, fs: FileSystem, endpoint: CsvExporter.SliceEndpoint, run: nat -> PerformRun)
    returns (retried: seq<ExportTask>)
    requires ServesCsvConfig(fs.files, endpoint)
    modifies store, fs
    ensures forall i :: 0 <= i < |retried| ==> retried[i] in Retriable(old(store.tasks))
    ensures forall t :: t in Retriable(old(store.tasks)) ==> t in retried
    ensures forall i, j :: 0 <= i < j < |retried| ==> retried[i].uri != retried[j].uri
    ensures store.tasks.Keys == old(store.tasks).Keys
    ensures forall i :: 0 <= i < |retried| ==> RetriedOnce(old(store.tasks), store.tasks, retried[i].uri)
    ensures forall u :: u in old(store.tasks) && (forall i :: 0 <= i < |retried| ==> retried[i].uri != u) ==>
      store.tasks[u] == old(store.tasks)[u]
    ensures CountersBounded(old(store.tasks)) ==> CountersBounded(store.tasks)
    ensures SweepOutcomes(old(fs.files), store.tasks, retried, run, |retried|)
    ensures JobsState(old(store.jobs), store.jobs, retried, old(fs.files), run, |retried|)
    ensures SameOutside(old(store.containers), store.containers, RunContainers(run, |retried|))
    ensures old(store.containers).Keys <= store.containers.Keys
    ensures SameOutside(old(store.exportFiles), store.exportFiles, RunExports(run, |retried|))
    ensures old(store.exportFiles).Keys <= store.exportFiles.Keys
    ensures SameOutside(old(fs.files), fs.files, RunPaths(run, |retried|))
  {
    retried := GetTasksThatCanBeRetried(store);
    ghost var tasks0 := store.tasks;
    forall i | 0 <= i < |retried|
      ensures retried[i] in Retriable(tasks0)
    {
      var u := retried[i].uri;
      assert u in tasks0 && CanBeRetried(tasks0[u]) && retried[i] == FailedTask(u, tasks0[u]);
    }
    RetryEach(store, fs, endpoint, run, retried);
  }

  /** The loop of the sweep: retries `retried[i]` with `run(i)`, awaiting each retry before the next. */
  method RetryEach(store: TripleStore, fs: FileSystem, endpoint: CsvExporter.SliceEndpoint, run: nat -> PerformRun, retried: seq<ExportTask>)
    requires ServesCsvConfig(fs.files, endpoint)
    requires forall k :: 0 <= k < |retried| ==> retried[k].isPartOf.Some?
    requires forall k :: 0 <= k < |retried| ==> retried[k].uri in store.tasks && CanBeRetried(store.tasks[retried[k].uri])
    requires forall j, k :: 0 <= j < k < |retried| ==> retried[j].uri != retried[k].uri
    modifies store, fs
    ensures Swept(old(Snap(store, fs)), Snap(store, fs), retried, run, |retried|)
  {
    ghost var s0 := Snap(store, fs);
    for i := 0 to |retried|
      invariant Swept(s0, Snap(store, fs), retried, run, i)
      invariant ServesCsvConfig(fs.files, endpoint)
    {
      ghost var before := Snap(store, fs);
      ghost var status := SweepRetry(store, fs, retried[i], endpoint, run(i));
      SweepAdvance(s0, before, Snap(store, fs), retried, run, i, status);
    }
  }

  /** The parts of the store and the file system that a retry changes. */
  datatype Snapshot = Snapshot(
    tasks: map<Uri, TaskRecord>,
    jobs: map<Uri, JobRecord>,
    containers: map<Uri, Container>,
    exports: map<Uri, FileRecord>,
    files: map<Path, seq<string>>)

  ghost function Snap(store: TripleStore, fs: FileSystem): Snapshot
    reads store, fs
  {
    Snapshot(store.tasks, store.jobs, store.containers, store.exportFiles, fs.files)
  }

  /** The state after the first `i` retries of the sweep that started in `s0`. */
  ghost predicate Swept(s0: Snapshot, s: Snapshot, retried: seq<ExportTask>, run: nat -> PerformRun, i: nat)
  {
    && SweepState(s0.tasks, s.tasks, retried, i)
    && SweepOutcomes(s0.files, s.tasks, retried, run, i)
    && JobsState(s0.jobs, s.jobs, retried, s0.files, run, i)
    && SameOutside(s0.containers, s.containers, RunContainers(run, i)) && s0.containers.Keys <= s.containers.Keys
    && SameOutside(s0.exports, s.exports, RunExports(run, i)) && s0.exports.Keys <= s.exports.Keys
    && SameOutside(s0.files, s.files, RunPaths(run, i))
  }

  /** The i-th retry, with the effect `SweepRetry` states, moves the sweep one task on. */
  lemma SweepAdvance(s0: Snapshot, s: Snapshot, s': Snapshot, retried: seq<ExportTask>, run: nat -> PerformRun, i: nat, status: Status)
    requires i < |retried| && retried[i].isPartOf.Some?
    requires forall k :: 0 <= k < |retried| ==> retried[k].uri in s0.tasks && CanBeRetried(s0.tasks[retried[k].uri])
    requires forall j, k :: 0 <= j < k < |retried| ==> retried[j].uri != retried[k].uri
    requires Swept(s0, s, retried, run, i)
    requires status == FinishStatus(!PerformSucceeds(s.files, run(i)))
    requires s'.tasks == FinishedTasks(RetriedTasks(s.tasks, retried[i].uri), retried[i].uri, status)
    requires s'.jobs == FinishedJobs(s.jobs, retried[i].isPartOf.value, status)
    requires SameOutside(s.containers, s'.containers, {ContainerUri(run(i).containerId)}) && s.containers.Keys <= s'.containers.Keys
    requires SameOutside(s.exports, s'.exports, {ExportFiles.ExportUri(run(i).fileId)}) && s.exports.Keys <= s'.exports.Keys
    requires SameOutside(s.files, s'.files, {CsvFile(run(i).isoTime), Tmp(CsvFile(run(i).isoTime))})
    ensures Swept(s0, s', retried, run, i + 1)
  {
    ConfigNotInRunPaths(run, i);
    assert PerformSucceeds(s.files, run(i)) == PerformSucceeds(s0.files, run(i));
    SweepStep(s0.tasks, s.tasks, retried, i, status);
    OutcomeStep(s0.files, s.tasks, retried, run, i, status);
    JobsStep(s0.jobs, s.jobs, retried, s0.files, run, i, status);
    SameOutsideStep(s0.containers, s.containers, s'.containers, RunContainers(run, i), {ContainerUri(run(i).containerId)});
    SameOutsideStep(s0.exports, s.exports, s'.exports, RunExports(run, i), {ExportFiles.ExportUri(run(i).fileId)});
    SameOutsideStep(s0.files, s.files, s'.files, RunPaths(run, i), {CsvFile(run(i).isoTime), Tmp(CsvFile(run(i).isoTime))});
  }

  /**
    One retry of the sweep, seen from the sweep: the task and its job end
    with the same status, failed or success, and only the run's own
    container, export record and files may change.
  */
  method SweepRetry(store: TripleStore, fs: FileSystem, task: ExportTask, endpoint: CsvExporter.SliceEndpoint, run: PerformRun)
    returns (ghost status: Status)
    requires task.isPartOf.Some?
    requires ServesCsvConfig(fs.files, endpoint)
    modifies store, fs
    ensures status == FinishStatus(!PerformSucceeds(old(fs.files), run))
    ensures status == Failed || status == Status.Success
    ensures store.tasks == FinishedTasks(RetriedTasks(old(store.tasks), task.uri), task.uri, status)
    ensures store.jobs == FinishedJobs(old(store.jobs), task.isPartOf.value, status)
    ensures SameOutside(old(store.containers), store.containers, {ContainerUri(run.containerId)})
    ensures old(store.containers).Keys <= store.containers.Keys
    ensures SameOutside(old(store.exportFiles), store.exportFiles, {ExportFiles.ExportUri(run.fileId)})
    ensures old(store.exportFiles).Keys <= store.exportFiles.Keys
    ensures SameOutside(old(fs.files), fs.files, {CsvFile(run.isoTime), Tmp(CsvFile(run.isoTime))})
    ensures ServesCsvConfig(fs.files, endpoint)
  {
    CsvFileIsNotConfig(run.isoTime);
    status := FinishStatus(!PerformSucceeds(fs.files, run));
    Retry(store, fs, task, endpoint, run);
  }

  /**
    The tasks after the first `i` retries of the sweep: the same keys, the
    first `i` retried once, the rest of the sweep not yet touched, every
    task outside the sweep as it was, and the bound on counters kept.
  */
  ghost predicate SweepState(tasks0: map<Uri, TaskRecord>, tasks: map<Uri, TaskRecord>, retried: seq<ExportTask>, i: nat)
  {
    && i <= |retried|
    && tasks.Keys == tasks0.Keys
    && (forall k :: 0 <= k < i ==> RetriedOnce(tasks0, tasks, retried[k].uri))
    && (forall k :: i <= k < |retried| ==> retried[k].uri in tasks0 && tasks[retried[k].uri] == tasks0[retried[k].uri])
    && (forall u :: u in tasks0 && (forall k :: 0 <= k < |retried| ==> retried[k].uri != u) ==> tasks[u] == tasks0[u])
    && (CountersBounded(tasks0) ==> CountersBounded(tasks))
  }

  /**
    The first `i` retried tasks ended as their own run decided: the k-th
    task, retried with `run(k)`, failed exactly when that run could not
    produce the CSV export from the files as they were before the sweep.
  */
  ghost predicate SweepOutcomes(files0: map<Path, seq<string>>, tasks: map<Uri, TaskRecord>, retried: seq<ExportTask>, run: nat -> PerformRun, i: nat)
  {
    && i <= |retried|
    && forall k :: 0 <= k < i ==>
         retried[k].uri in tasks && tasks[retried[k].uri].status == FinishStatus(!PerformSucceeds(files0, run(k)))
  }

  /** No run of the sweep writes the CSV query file, so whether a run can succeed never changes during the sweep. */
  lemma {:induction false} ConfigNotInRunPaths(run: nat -> PerformRun, n: nat)
    ensures CSV_EXPORT_SPARQL_FILE !in RunPaths(run, n)
  {
    if n > 0 {
      ConfigNotInRunPaths(run, n - 1);
      CsvFileIsNotConfig(run(n - 1).isoTime);
    }
  }

  /** The i-th retry, finished with its own run's status, adds its outcome and keeps the earlier ones. */
  lemma OutcomeStep(files0: map<Path, seq<string>>, tasks: map<Uri, TaskRecord>, retried: seq<ExportTask>, run: nat -> PerformRun, i: nat, status: Status)
    requires i < |retried| && retried[i].uri in tasks
    requires forall j, k :: 0 <= j < k < |retried| ==> retried[j].uri != retried[k].uri
    requires SweepOutcomes(files0, tasks, retried, run, i)
    requires status == FinishStatus(!PerformSucceeds(files0, run(i)))
    ensures SweepOutcomes(files0, FinishedTasks(RetriedTasks(tasks, retried[i].uri), retried[i].uri, status), retried, run, i + 1)
  {
    RetryThenFinish(tasks, retried[i].uri, status);
    forall k | 0 <= k < i
      ensures retried[k].uri != retried[i].uri
    {
    }
  }

  /**
    The jobs after the first `i` retries: the same keys; only the jobs of
    those tasks changed, and only in their status; a job keeps having a
    status or keeps having none; a job of a retried task that had a status
    now holds the outcome of the last of its tasks retried so far.
  */
  ghost predicate JobsState(jobs0: map<Uri, JobRecord>, jobs: map<Uri, JobRecord>, retried: seq<ExportTask>,
                            files0: map<Path, seq<string>>, run: nat -> PerformRun, i: nat)
  {
    && i <= |retried|
    && jobs.Keys == jobs0.Keys
    && SameOutside(jobs0, jobs, JobsOfFirst(retried, i))
    && (forall j :: j in jobs0 ==>
          && jobs[j] == jobs0[j].(status := jobs[j].status)
          && (jobs[j].status.None? <==> jobs0[j].status.None?))
    && (forall j :: j in jobs0 && jobs0[j].status.Some? && LastRetryOf(retried, j, i).Some? ==>
          jobs[j].status == Some(FinishStatus(!PerformSucceeds(files0, run(LastRetryOf(retried, j, i).value)))))
  }

  /** Changing a map only at `more` extends the keys it may differ at by `more`. */
  lemma SameOutsideStep<K(!new), V>(m0: map<K, V>, m: map<K, V>, m': map<K, V>, keys: set<K>, more: set<K>)
    requires SameOutside(m0, m, keys)
    requires SameOutside(m, m', more)
    ensures SameOutside(m0, m', keys + more)
  {
  }

  /** One retry of task `u`, whatever its outcome: only `u` changes, in its status and counter, and the bound is kept. */
  lemma RetryThenFinish(tasks: map<Uri, TaskRecord>, u: Uri, status: Status)
    requires u in tasks
    ensures var after := FinishedTasks(RetriedTasks(tasks, u), u, status);
      && after.Keys == tasks.Keys
      && after[u] == tasks[u].(status := status, retries := Bumped(tasks[u]))
      && (forall v :: v in tasks && v != u ==> after[v] == tasks[v])
      && (CountersBounded(tasks) && CanBeRetried(tasks[u]) ==> CountersBounded(after))
  {
    var bumped := RetriedTasks(tasks, u);
    var after := FinishedTasks(bumped, u, status);
    RetryCounts(tasks, u);
    if CountersBounded(tasks) && CanBeRetried(tasks[u]) {
      RetryKeepsBound(tasks, u);
      assert forall v :: v in bumped ==> after[v].retries == bumped[v].retries;
    }
  }

  /** One retry of the sweep, ending failed or successful, moves the sweep state one task on. */
  lemma SweepStep(tasks0: map<Uri, TaskRecord>, tasks: map<Uri, TaskRecord>, retried: seq<ExportTask>, i: nat, status: Status)
    requires i < |retried|
    requires status == Failed || status == Status.Success
    requires forall k :: 0 <= k < |retried| ==> retried[k].uri in tasks0 && CanBeRetried(tasks0[retried[k].uri])
    requires forall j, k :: 0 <= j < k < |retried| ==> retried[j].uri != retried[k].uri
    requires SweepState(tasks0, tasks, retried, i)
    ensures SweepState(tasks0, FinishedTasks(RetriedTasks(tasks, retried[i].uri), retried[i].uri, status), retried, i + 1)
  {
    var u := retried[i].uri;
    var after := FinishedTasks(RetriedTasks(tasks, u), u, status);
    RetryThenFinish(tasks, u, status);
    forall k | 0 <= k < |retried| && k != i
      ensures after[retried[k].uri] == tasks[retried[k].uri]
    {
      assert retried[k].uri != u;
    }
    assert RetriedOnce(tasks0, after, u);
  }

  /** Finishing one more retried task with its own run's outcome moves the jobs' state one task on. */
  lemma JobsStep(jobs0: map<Uri, JobRecord>, jobs: map<Uri, JobRecord>, retried: seq<ExportTask>,
                 files0: map<Path, seq<string>>, run: nat -> PerformRun, i: nat, status: Status)
    requires i < |retried| && retried[i].isPartOf.Some?
    requires status == FinishStatus(!PerformSucceeds(files0, run(i)))
    requires JobsState(jobs0, jobs, retried, files0, run, i)
    ensures JobsState(jobs0, FinishedJobs(jobs, retried[i].isPartOf.value, status), retried, files0, run, i + 1)
  {
    var job := retried[i].isPartOf.value;
    var after := FinishedJobs(jobs, job, status);
    assert JobsOfFirst(retried, i + 1) == JobsOfFirst(retried, i) + {job};
    FinishedJobsShape(jobs, job, status);
    SameOutsideStep(jobs0, jobs, after, JobsOfFirst(retried, i), {job});
    forall j | j in jobs0 && jobs0[j].status.Some? && LastRetryOf(retried, j, i + 1).Some?
      ensures after[j].status == Some(FinishStatus(!PerformSucceeds(files0, run(LastRetryOf(retried, j, i + 1).value))))
    {
      if j != job {
        assert LastRetryOf(retried, j, i + 1) == LastRetryOf(retried, j, i);
      }
    }
  }

  /** Finishing changes at most the status of one job, and only one that has a status. */
  lemma FinishedJobsShape(jobs: map<Uri, JobRecord>, job: Uri, status: Status)
    ensures var after := FinishedJobs(jobs, job, status);
      && after.Keys == jobs.Keys
      && SameOutside(jobs, after, {job})
      && (job in jobs ==> after[job] == jobs[job].(status := after[job].status)
                          && (after[job].status.None? <==> jobs[job].status.None?)
                          && (jobs[job].status.Some? ==> after[job].status == Some(status)))
  {
  }

  /**
    Loading app.js: `cleanup()` is evaluated as the argument of `then`, so
    it runs at once rather than after `waitForDatabase`. It acts only if the
    store is already reachable then; otherwise its query is rejected and
    nothing changes, and waiting for the database does no cleanup later.
  */
  method Startup(store: TripleStore, reachableAtLoad: bool)
    modifies store
    ensures reachableAtLoad ==>
      && store.tasks == CanceledTasks(old(store.tasks), old(store.jobs))
      && store.jobs == ClearedJobs(old(store.tasks), old(store.jobs))
    ensures !reachableAtLoad ==> store.tasks == old(store.tasks) && store.jobs == old(store.jobs)
    ensures store.containers == old(store.containers) && store.exportFiles == old(store.exportFiles)
  {
    if reachableAtLoad {
      Cleanup(store);
    }
  }
}
