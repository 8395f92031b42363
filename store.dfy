/**
  The triple store, reduced to the records the core reads and writes. Each
  record stands for the triples of one subject; `graph` is the named graph
  those triples live in, which matters to updates that say `WITH <graph>` or
  join two subjects inside one `GRAPH ?g`.
*/
module Store {
  import opened Wrappers
  import opened Env

  type Uri = string

  /** A `task:Task`. Its status is always present; the retry counter is absent until the first retry. */
  datatype TaskRecord = TaskRecord(
    uuid: string,
    status: Status,
    retries: Option<nat>,
    isPartOf: Uri,
    operation: Uri,
    index: string,
    created: string,
    graph: Uri)

  /** A `cogs:Job`. Its status can be deleted (by the startup cleanup). */
  datatype JobRecord = JobRecord(
    uuid: string,
    status: Option<Status>,
    operation: Uri,
    creator: Uri,
    created: string,
    graph: Uri)

  /** An `nfo:DataContainer` linked from `task` by `task:resultsContainer`, with one `task:hasFile` per file. */
  datatype Container = Container(uuid: string, task: Uri, files: seq<Uri>, graph: Uri)

  /** An `export:Export` file record. */
  datatype FileRecord = FileRecord(uuid: string, filename: string, format: string, size: nat, created: string)

  class TripleStore {
    var tasks: map<Uri, TaskRecord>
    var jobs: map<Uri, JobRecord>
    var containers: map<Uri, Container>
    var exportFiles: map<Uri, FileRecord>

    constructor (tasks: map<Uri, TaskRecord>, jobs: map<Uri, JobRecord>)
      ensures this.tasks == tasks && this.jobs == jobs
      ensures containers == map[] && exportFiles == map[]
    {
      this.tasks := tasks;
      this.jobs := jobs;
      containers := map[];
      exportFiles := map[];
    }
  }
}
