/**
 * The download record and its lifecycle statuses (backend/internal/models/download.go).
 * Timestamps are abstract integers supplied by the caller; the creation time
 * is not modelled.
 */
module Models {
  import opened Strings

  datatype Status = Queued | Downloading | Completed | Organizing | Organized | Failed

  /** The string each status is stored and serialised as. */
  function StatusName(s: Status): (r: string)
    ensures |r| > 0
  {
    match s
    case Queued => "queued"
    case Downloading => "downloading"
    case Completed => "completed"
    case Organizing => "organizing"
    case Organized => "organized"
    case Failed => "failed"
  }

  datatype Download = Download(
    id: string,
    title: string,
    author: string,
    series: string,
    seriesNumber: string,
    torrentURL: string,
    magnetLink: string,
    torrentBytes: seq<bv8>,
    category: string,
    qbitHash: string,
    status: Status,
    progress: real,
    downloadPath: string,
    organizedPath: string,
    errorMessage: string,
    completedAt: Option<int>,
    organizedAt: Option<int>
  )
}
