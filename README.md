# Mandaten download generator: a verified model

This project models the core of `mandaten-download-generator-service`, a
semantic.works microservice. The service writes downloadable dumps of the
mandates database. It exposes two HTTP routes:

- `POST /export-tasks` starts an export unless one is already running.
- `GET /export-tasks/:id` reports the state of one task.

Two scheduled jobs complete the picture. One POSTs to the service itself;
the other retries failed tasks. When the service loads, a cleanup cancels
tasks that a previous run left busy.

Each export task belongs to a job. Both live in the jobs graph of a triple
store with a status (`scheduled`, `busy`, `success`, `failed`, `canceled`)
and optionally a retry counter. A run of `perform` does two things. First,
it pages the configured CSV SELECT query through the SPARQL endpoint, 1000
rows at a time, into `<file>.tmp`, then renames that file. Second, it
records the file's metadata and finishes the task. The Turtle exporter pages
one CONSTRUCT query per configured type the same way. Every page goes to a
common temporary file, which is renamed at the end.

The model has these parts:

- **`Store`** is the triple store. A `TripleStore` class holds the tasks,
  jobs, result containers and export-file records as maps keyed by URI.
- **`Files`** is the file system. A `FileSystem` class maps each path to
  the chunks appended to it.
- **`Env`** holds the environment, at its default values.
- **`ExportTasks`** and **`App`** have one method per store-changing
  operation. A single operation's `ensures` ties every field of the new
  state to a function of the old state, and lemmas state what those
  functions promise. The retry sweep states, for each task it retries, the
  outcome of that task and of its job (the last of the job's tasks retried
  decides), and bounds what the runs may change in the containers, the
  export records and the file system.
- **`CsvExporter`** models the CSV exporter as an imperative loop proved
  against a specification of its full output: the header and every row
  once, in order.
- **`TtlExporter`** models the Turtle exporter. For one type the loop is
  proved to send exactly the page queries for the count and to append the
  endpoint's answers in order. For the whole export the model states only
  which paths change and that the target starts with the temporary file's
  old contents; the
  Turtle content after that is not specified.
- **`Text`** holds the string helpers. It includes the `LIMIT … OFFSET …`
  suffix, which is parsed back by the modelled endpoint, and `Split`/`Join`.
  `Join` is used to read generated query text back line by line.

The service's documented behaviour and its code disagree in places. The
model follows the code:

- Documented: `insertNewTask()` "creates Job(busy) and Task(busy,
  retries=0)". The code (lib/export-task.js:136-185) writes no counter, so
  the model has `retries == None` until the first retry.
- Documented: the startup cleanup finds every busy task "and transition[s]
  both it and its Job to `canceled`". The code's update
  (lib/export-task.js:326-353) inserts for an unbound `?jobs` variable. So
  a matched job's status is deleted and no canceled status is written;
  `CleanupEffect` states this.
- Documented: `perform` runs the exporter "for each configured output
  format". The code exports CSV only when the CSV query file exists.
  Otherwise the warning's template literal names an undeclared variable
  (lib/export-task.js:94-99), so that branch throws before the Turtle
  export is reached, and the task is finished as failed (`Perform`).
- Documented: "one fetch-and-append batch is retried up to a configured
  maximum count", and "after each batch fetch, sleep for a configured
  interval". The code has neither. A failing request reaches an `error`
  listener that rethrows inside the stream's event handler
  (lib/csv/sparql-exporter.js:47, lib/ttl/type-exporter.js:73). That is an
  uncaught exception, or a promise that never settles; the task is not
  finished as failed. Pages follow one another at once.
- Documented: the cleanup runs "once at process startup, before the
  scheduler is armed". The code passes `cleanup()`, already called, to
  `then` (app.js:15). So the cleanup runs at once as the module loads, not
  after the database is reachable, and the cron jobs are armed alongside it
  (`Startup`).

## Model

| member | source | states |
|---|---|---|
| Env.StatusUriRoundTrip | env.js:87-96 | the five status URIs are distinct and each reads back as its status |
| Text.SplitJoin | lib/ttl/type-exporter.js:89 | splitting a newline-joined list of one-line parts gives back exactly those parts |
| Text.JoinSplit | lib/ttl/type-exporter.js:103 | joining the pieces of a split with the separator gives back the original text |
| Text.Without | lib/export-task.js:86 | removing a set of characters leaves none of them, and leaves text without them unchanged |
| Text.WithoutKeepsOthers | lib/export-task.js:86 | every character outside the removed set keeps its number of occurrences |
| Text.ParseDecimalOf | lib/export-task.js:55 | reading the decimal rendering of a counter gives back the counter |
| Text.ParsePaginatedRoundTrip | lib/csv/sparql-exporter.js:39 | the endpoint reads back from `query LIMIT l OFFSET o` exactly the limit and offset that were sent |
| ExportFiles.ExportUri | lib/export-file.js:28 | an export URI is the fixed base followed by the file's uuid |
| ExportFiles.TrimTrailingSlashes | lib/export-file.js:30 | the trimmed path is a prefix of the path ending in no slash, and only slashes were removed |
| ExportFiles.BasenameIsLastSegment | lib/export-file.js:30 | once trailing slashes are dropped, the base name is a suffix of the path holding no slash, preceded by a slash unless it is the whole path |
| ExportFiles.TrailingSlashIgnored | lib/export-file.js:30 | a trailing slash does not change the base name |
| ExportFiles.BasenameOfJoin | lib/export-file.js:30 | the base name of `dir/name` is `name` when the name has no slash and is not empty, and the base name of `dir` when it is empty |
| ExportFiles.InsertNewExportFile | lib/export-file.js:26-57 | one new export record under the export URI, with the file's base name, format and size; nothing else in the store changes; the returned object names the same URI, uuid, format and size |
| CsvExporter.TerminatedConcat | lib/csv/sparql-exporter.js:55 | terminating the lines of two batches one by one equals terminating them together |
| CsvExporter.KeptPage | lib/csv/sparql-exporter.js:49-59 | of a response (header, rows, trailing empty line) the header is kept only on the first batch, every row is kept with a newline, and the empty line is dropped |
| CsvExporter.AppendLines | lib/csv/sparql-exporter.js:43-62 | the file grows by exactly the kept lines, and the record count is their number |
| CsvExporter.AppendBatch | lib/csv/sparql-exporter.js:29-63 | one paginated request; the file grows by the kept lines of its answer, and the result says whether any record came back |
| CsvExporter.CsvBatchCountOfStop | lib/csv/sparql-exporter.js:17-22 | the loop sends one request per started thousand rows (one when there are none, since the header counts as a record), then one final request that adds nothing |
| CsvExporter.PageStep | lib/csv/sparql-exporter.js:19 | each page adds exactly the next slice of rows to what was written, with the header in front on the first page |
| CsvExporter.ExportPage | lib/csv/sparql-exporter.js:19-20 | after the page at `offset` the temporary file holds everything up to `offset + 1000`, and another page follows exactly when the first page was sent or rows remain |
| CsvExporter.ExportAsync | lib/csv/sparql-exporter.js:12-25 | the i-th request carries `LIMIT 1000 OFFSET 1000 i`; the temporary file is gone and the target holds the temporary file's old contents followed by the header and every row once, in order |
| TtlExporter.VarName | lib/ttl/type-exporter.js:106-108 | the variable name has no colon, and a property without a colon is its own variable name; no `?` is added |
| TtlExporter.VarNameKeepsOthers | lib/ttl/type-exporter.js:106-108 | every other character is kept as often as it occurs, and the removal works piece by piece |
| TtlExporter.PrefixStatementsLines | lib/ttl/type-exporter.js:78-82 | the prefix block has one `PREFIX p: <uri>` line per configured prefix, in order |
| TtlExporter.ConstructStatementsLines | lib/ttl/type-exporter.js:84-90 | the template is the type triple, the optional-predicate pattern, then one pattern per required property, in order |
| TtlExporter.WhereStatementsLines | lib/ttl/type-exporter.js:92-104 | the WHERE block is the type triple, one pattern per required property, the optional pattern and FILTER only when optional properties are configured and included, and last the additional filter, empty when absent |
| TtlExporter.QueriesShareWhere | lib/ttl/type-exporter.js:23-31 | the count query and the CONSTRUCT query start with the same prefixes and end with the same FROM and WHERE clause |
| TtlExporter.WindowsCover | lib/ttl/type-exporter.js:33-37 | no page is sent for zero resources; every page starts before the count; every position below the count lies in exactly one page window |
| TtlExporter.BatchesOfStop | lib/ttl/type-exporter.js:33-37 | the loop stops after exactly one page per started thousand resources |
| TtlExporter.PageQueriesWindows | lib/ttl/type-exporter.js:33-37 | one page query per started thousand of the count; the endpoint reads back from the i-th the limit 1000 and the offset 1000 i, and every such offset is below the count |
| TtlExporter.ProgressLog | lib/ttl/type-exporter.js:36 | each progress figure printed is at most the count |
| TtlExporter.AppendBatch | lib/ttl/type-exporter.js:57-76 | the Turtle document the endpoint returns for the paginated query is appended to the file |
| TtlExporter.AppendPages | lib/ttl/type-exporter.js:22-37 | the pages sent are exactly the page queries for the count; nothing changes when the count is 0; otherwise the temporary file grows by the endpoint's pages in order |
| TtlExporter.ExportType | lib/ttl/type-exporter.js:18-38 | a type's pages are sent for the count its count query reports |
| TtlExporter.TmpOnlyStep | lib/ttl/type-exporter.js:18-38 | exporting one more type changes only the temporary file, which keeps its earlier contents as a prefix |
| TtlExporter.ExportAsync | lib/ttl/type-exporter.js:13-41 | the rename succeeds exactly when the temporary file existed or some type has resources; then the temporary file is gone and the target starts with the temporary file's old contents; on failure nothing changes; other paths never change |
| ExportTasks.ToJsonApi | lib/export-task.js:116-128 | the document has type `export-tasks`, the task's id and URI, a status URI that reads back as the task's status, and the task's counter as stored in the object |
| ExportTasks.InsertNewTask | lib/export-task.js:136-185 | a busy job, then a busy export task of that job; a failing first insert leaves the store unchanged and skips the second; the returned task is busy and part of the new job |
| ExportTasks.NewRecords | lib/export-task.js:143-175 | the new job and task are busy, in the jobs graph, and linked; the task has index "0", the export operation and no retry counter |
| ExportTasks.IsExportRunning | lib/export-task.js:396-409 | the answer is `ExportRunning` of the stored tasks: true exactly when some export-operation task is busy |
| ExportTasks.InsertMakesRunning | lib/export-task.js:136-185 | after a new task is inserted an export is running, and the store has one task more when the URI was new |
| ExportTasks.OtherOperationsDoNotBlock | lib/export-task.js:400-407 | busy tasks of other operations never count as a running export |
| ExportTasks.BumpRetries | lib/export-task.js:31-74 | the counter becomes one more than before (1 when absent) and the task is busy again; the job is not touched |
| ExportTasks.RetryCounts | lib/export-task.js:38-74 | only the retried task changes: its counter rises by one and it is busy, or it is unchanged outside the jobs graph |
| ExportTasks.GetTasksThatCanBeRetried | lib/export-task.js:192-216 | every failed task whose counter is absent or below the maximum, each exactly once, as a failed task object of its job |
| ExportTasks.RetryKeepsBound | lib/export-task.js:31-74 | retrying a retriable task keeps every counter at most the maximum, and a task at the maximum is never retriable again |
| ExportTasks.DataObjectTriplesLines | lib/export-task.js:231-236 | the `hasFile` block reads back, line by line, as one `<container> task:hasFile <file> .` triple per file, in order |
| ExportTasks.FinishTask | lib/export-task.js:224-304 | a results container only when there are files; the task's status becomes failed or success; the job's existing status follows |
| ExportTasks.FinishAgrees | lib/export-task.js:225-303 | the task fails exactly when asked to; the job, if it still has a status, gets the same one; no counter changes |
| ExportTasks.ResultsOnlyWithFiles | lib/export-task.js:227-257 | a container exists exactly when there are files and the task is in the store, holds those files, and leaves existing containers alone |
| ExportTasks.FinishUnblocks | lib/export-task.js:259-280 | finishing the only busy export task ends the running export, whatever the outcome |
| ExportTasks.StampHasNoSlash | lib/export-task.js:86 | the time stamp in a file name has no slash |
| ExportTasks.CsvFileBasename | lib/export-task.js:86-92 | the CSV export's recorded name is `mandaten-<stamp>.csv` |
| ExportTasks.CsvFileIsNotConfig | lib/export-task.js:89-91 | the CSV export and its temporary file never overwrite the CSV query file |
| ExportTasks.Perform | lib/export-task.js:83-108 | with the query file present and no I/O error: the CSV export is written, one export record is added, and the task succeeds with that one file; otherwise nothing is written and the task fails with no files |
| ExportTasks.Retry | lib/export-task.js:31-76 | the counter is raised, then perform finishes the task and its job as failed or success; on success the CSV file holds the temporary file's old contents followed by the full CSV output, the temporary file is gone, one export record with the file's name, format and size is added, and a container holding that one file is linked; on failure no file or record changes and no container is created; no other path changes |
| ExportTasks.Cleanup | lib/export-task.js:309-355 | when some task is busy, matched busy tasks become canceled and their jobs lose their status; otherwise nothing changes |
| ExportTasks.CleanupWithoutBusy | lib/export-task.js:325 | without busy tasks the cleanup is the identity |
| ExportTasks.CleanupEffect | lib/export-task.js:326-353 | a task becomes canceled exactly when it was matched; a job keeps or loses its status but never becomes canceled; no counter changes |
| ExportTasks.CleanupUnblocks | lib/export-task.js:341-351 | the running export ends when every busy export task has a job with a status in its graph, and continues otherwise |
| ExportTasks.FinishAfterCleanup | lib/export-task.js:282-303 | a job whose status cleanup deleted gets no status when its task is finished later |
| ExportTasks.ExportTaskByUuid | lib/export-task.js:364-390 | nothing exactly when no task has that uuid; otherwise such a task, with no job and the counter as the stored text, or 0 |
| ExportTasks.FoundTaskReportsStore | lib/export-task.js:381-388 | the reported status reads back as the stored one, and the counter as the stored number (0 when absent) |
| App.PostExportTasks | app.js:53-66 | 503 and no change while an export runs; otherwise 202 with `/export-tasks/<id>`, a new busy job and a new busy task; when the job insert fails, the error is forwarded and nothing changes; when the task insert fails, the error is forwarded and only the new job remains |
| App.SecondPostRefused | app.js:53-66 | two POSTs in a row: when the first is accepted or refused, the second is refused with 503, and an accepted first one points at its task |
| App.GetExportTask | app.js:74-83 | 404 exactly when no task has the id; otherwise the JSON:API document of such a task |
| App.RetrySweep | app.js:33-43 | the retried tasks are exactly the retriable ones, each once, in the order returned; the i-th is retried with the i-th run and ends failed exactly when that run cannot produce the CSV export from the files as they were before the sweep, success otherwise, with only its status changed and its counter raised by one in the jobs graph; every other task is unchanged; no counter passes the maximum; a job of a retried task that had a status ends with the outcome of the last of its tasks retried, and every other job is unchanged; containers, export records and files change only under the runs' own URIs and paths, and none is removed from the store |
| App.RetryEach | app.js:37-39 | the loop retries the i-th task with the i-th run, awaiting each before the next, and ends in the sweep state for all of them: per-task outcomes, jobs holding their last task's outcome, and the runs' frames |
| App.SweepAdvance | app.js:37-39 | one awaited retry with the effect `SweepRetry` states moves every part of the sweep state one task on |
| App.RetryThenFinish | app.js:37-39 | one retry changes only its own task: its status becomes the finish status and its counter is raised once in the jobs graph, unchanged elsewhere; the bound is kept |
| App.SweepRetry | app.js:38 | one awaited retry: the task and its job end with the same status, failed exactly when its run cannot produce the CSV export (query file missing or an I/O fault), and only the run's own container, export record and files may change |
| App.SweepStep | app.js:37-39 | each awaited retry advances the sweep by one task and leaves the tasks after it untouched |
| App.OutcomeStep | app.js:37-39 | the i-th awaited retry records the outcome of the i-th run on the i-th task and keeps the outcomes of the earlier ones |
| App.ConfigNotInRunPaths | lib/export-task.js:86-91 | no run of the sweep writes the CSV query file, so whether a run can succeed is the same throughout the sweep |
| App.JobsStep | app.js:37-39 | each awaited retry changes only the job of its task, keeping its other fields and setting an existing status to that retry's outcome, so a job holds the outcome of the last of its tasks retried |
| App.Startup | app.js:15 | the cleanup's effect when the store is reachable as the module loads, no change otherwise |

## Left out

- HTTP, SPARQL transport, streams and the file system's bytes are not modelled directly. Each endpoint is a parameter: the CSV endpoint serves slices of a fixed table, and the Turtle endpoint is a pair of functions. Files are sequences of appended chunks, and a file's size is the length of its text.
- Concurrency is not modelled. `Promise.all` over the types in lib/ttl/type-exporter.js:18-38 is modelled as one type after another. With the types running concurrently, the chunks of different pages can interleave within the temporary file, since every page streams into the same file in append mode. `TtlExporter.ExportAsync` therefore states nothing about the file's contents after its old prefix.
- `perform` is not awaited by `POST /export-tasks`. `App.PostExportTasks` returns the started task, and its export is a separate call.
- Clocks and uuids are parameters: `created`, the ISO time of a run, and the job, task, file and container ids. A uuid is assumed fresh; reusing one overwrites the map entry.
- `dct:modified` and the RDF types of the inserted resources are not modelled. Store records keep the fields the queries read.
- A failing store update is modelled only for `insertNewTask`. For the CSV export, an I/O error is modelled as failing before anything is written (`PerformRun.ioFault`). Errors raised part-way through a run are not modelled. A failing SPARQL request reaches an `error` listener that rethrows inside the stream's event handler (lib/csv/sparql-exporter.js:47, lib/ttl/type-exporter.js:73); that is an uncaught exception or a promise that never settles, not a failed task, and the model has no such outcome.
- `ExportTasks.Perform`: the CSV endpoint must serve the text of the query file (`ServesCsvConfig`); the endpoint's answers are not derived from that text.
- `ExportTasks.FinishTask` requires the task object to name its job. Objects from `exportTaskByUuid` have no `isPartOf`, and they are never finished.
- Environment variables are fixed at their defaults in env.js. `CSV_EXPORT_SPARQL_FILE` is read under a name with a trailing space, so its default always applies.
- `path.join` normalisation is not modelled. The output directory is a constant without a trailing slash.
- The `mkdirSync` call at lib/export-task.js:19 is not modelled. lib/export-task.js:12 imports `fs` from `node:fs/promises`, which has no `mkdirSync`, so as written that line is a TypeError when the module loads (read from the code, not executed). The model assumes the module loaded and the output directory exists.
- Cron scheduling (app.js:18-31) and `waitForDatabase` (database-utils.js) are not modelled. The scheduled POST is the same request as `App.PostExportTasks`.
- The `errorHandler` middleware is not modelled; `App.Response.Forwarded` stands for passing the error on.
- The HTTP status codes are not modelled; they are the constructors of `App.Response`.
- TtlExporter.ExportAsync: states nothing about the Turtle content beyond the pages the endpoint returns. The count query counts distinct resources (lib/ttl/type-exporter.js:46-47), while `LIMIT`/`OFFSET` (lib/ttl/type-exporter.js:33-37, 67) window the solutions of the CONSTRUCT query, one per combination of required and optional values. When a resource has more than one solution, the loop stops before the last solutions and their triples are not exported. The model treats each page's answer as opaque text, so this loss is not visible in it.
- CsvExporter.ExportAsync: assumes the endpoint serves no empty CSV row (`SliceEndpoint.Valid`). As written, an empty line is dropped without being counted (lib/csv/sparql-exporter.js:52-53). In a one-column result a solution whose value is unbound or the empty string is such a line, and a page made only of them, at an offset above 0, ends the loop early.
- App.RetrySweep: the containers, export records and CSV files the runs create are only bounded, by the runs' own URIs and paths; the sweep does not state their contents. `ExportTasks.Retry` states them exactly for one run.
- URI escaping by `sparqlEscapeUri` is not modelled. URIs are written between angle brackets as they are.
- `ExportTasks.Perform` never reaches the Turtle exporter, because the missing-query branch throws first (lib/export-task.js:94-99). The Turtle exporter is therefore modelled and proved as a stand-alone operation.
