/**
  The configuration the core reads from env.js, with its defaults. Values that
  env.js reads from the environment are fixed here at their documented default
  (MAX_NUMBER_OF_RETRIES, JOBS_GRAPH, TASK_OPERATION_URI, EXPORT_FILE_BASE,
  FILE_OUTPUT_DIR, CSV_EXPORT_SPARQL_FILE).
*/
module Env {
  import Wrappers

  /** The five job/task statuses; each is stored as a concept URI. */
  datatype Status = Scheduled | Busy | Success | Failed | Canceled

  function StatusUri(s: Status): string
  {
    match s
    case Busy => "http://redpencil.data.gift/id/concept/JobStatus/busy"
    case Scheduled => "http://redpencil.data.gift/id/concept/JobStatus/scheduled"
    case Success => "http://redpencil.data.gift/id/concept/JobStatus/success"
    case Failed => "http://redpencil.data.gift/id/concept/JobStatus/failed"
    case Canceled => "http://redpencil.data.gift/id/concept/JobStatus/canceled"
  }

  /** The status a concept URI stands for, if any. */
  function StatusOfUri(uri: string): (r: Wrappers.Option<Status>)
  {
    if uri == StatusUri(Busy) then Wrappers.Some(Busy)
    else if uri == StatusUri(Scheduled) then Wrappers.Some(Scheduled)
    else if uri == StatusUri(Success) then Wrappers.Some(Success)
    else if uri == StatusUri(Failed) then Wrappers.Some(Failed)
    else if uri == StatusUri(Canceled) then Wrappers.Some(Canceled)
    else Wrappers.None
  }

  /** The five status URIs are distinct: each one reads back as its own status. */
  lemma StatusUriRoundTrip(s: Status)
    ensures StatusOfUri(StatusUri(s)) == Wrappers.Some(s)
  {
    assert StatusUri(Busy)[48] == 'b' && StatusUri(Scheduled)[48] == 's' && StatusUri(Success)[48] == 's';
    assert StatusUri(Failed)[48] == 'f' && StatusUri(Canceled)[48] == 'c';
    assert StatusUri(Scheduled)[49] == 'c' && StatusUri(Success)[49] == 'u';
  }

  /** NUMBER_OF_RETRIES: a positive integer, 3 when unset. */
  const MAX_NUMBER_OF_RETRIES: nat := 3

  const JOBS_GRAPH: string := "http://mu.semte.ch/graphs/system/jobs"
  const TASK_OPERATION_URI: string := "http://lblod.data.gift/id/jobs/concept/TaskOperation/exportMandatarissen"
  const JOB_OPERATION_URI: string := "http://redpencil.data.gift/id/jobs/concept/JobOperation/DownloadGeneration"
  const JOB_CREATOR_URI: string := "http://lblod.data.gift/services/DownloadGeneratorService"
  const TASK_URI_PREFIX: string := "http://redpencil.data.gift/id/task/"
  const JOB_URI_PREFIX: string := "http://redpencil.data.gift/id/job/"
  const CONTAINER_URI_PREFIX: string := "http://redpencil.data.gift/id/dataContainers/"

  const EXPORT_FILE_BASE: string := "mandaten"
  const FILE_OUTPUT_DIR: string := "/share/exports"
  /**
    The CSV query file whose presence `perform` tests. env.js reads it from a
    variable whose name ends in a space, so the default is always the value,
    and it is the same path the CSV exporter reads its query from.
  */
  const CSV_EXPORT_SPARQL_FILE: string := "/config/csv-export.sparql"
}
