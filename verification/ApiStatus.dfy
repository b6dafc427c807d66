/** The status a poll of `GET /v1/ingest/{document_id}` shows for a job row (`api/ingest_routes.py`). */
module ApiStatuses {
  import JobStores

  datatype ApiStatus = ShownPending | ShownParsing | ShownIndexing | ShownReady | ShownFailed

  /** Only the two steps before indexing share a status. */
  function MapPhaseToStatus(phase: JobStores.JobPhase): (status: ApiStatus)
    ensures (status.ShownPending? <==> phase.Pending?) && (status.ShownIndexing? <==> phase.Indexing?)
    ensures (status.ShownReady? <==> phase.Ready?) && (status.ShownFailed? <==> phase.Failed?)
  {
    match phase
    case Pending => ShownPending
    case Parsed => ShownParsing
    case Chunked => ShownParsing
    case Indexing => ShownIndexing
    case Ready => ShownReady
    case Failed => ShownFailed
  }

  /** The order a client may see the statuses in; a job ends in one of the last two. */
  function StatusRank(status: ApiStatus): nat {
    match status
    case ShownPending => 0
    case ShownParsing => 1
    case ShownIndexing => 2
    case ShownReady => 3
    case ShownFailed => 3
  }
}
