/** The values that the API, the database, the broker and the worker exchange. */
module Domain {
  datatype Option<+T> = None | Some(value: T)

  /** A job's UUID.  Ids are drawn fresh, so uploads are simply numbered. */
  type JobId = nat

  datatype Status = Queued | Processing | Completed | Failed

  datatype Segment = Segment(id: nat, start: real, end: real, text: string)

  datatype Transcript = Transcript(text: string, language: string, duration: real, segments: seq<Segment>)

  /** A multer temp file, or the file it is renamed to, `<audioDir>/<id>.<ext>`. */
  datatype Path = Temp(id: JobId) | Final(id: JobId, ext: string)

  /** One row of the `jobs` table; columns no operation here reads are dropped. */
  datatype Row = Row(
    status: Status,
    attempts: nat,
    progress: real,
    error: Option<string>,
    transcript: Option<Transcript>,
    language: Option<string>,
    durationSec: Option<real>,
    contentHash: string,
    filePath: Path
  )

  function NewRow(hash: string, path: Path): Row {
    Row(Queued, 0, 0.0, None, None, None, None, hash, path)
  }

  /** The five UPDATE statements the worker issues. */
  datatype Update =
    | MarkProcessing
    | UpdateProgress(value: real)
    | Complete(transcript: Transcript)
    | RecordRetry(error: string)
    | Fail(error: string)

  function Updated(r: Row, u: Update): Row {
    match u
    case MarkProcessing => r.(status := Processing, attempts := r.attempts + 1, progress := 0.0)
    case UpdateProgress(v) => if r.status == Processing then r.(progress := v) else r
    case Complete(t) =>
      r.(status := Completed, transcript := Some(t), language := Some(t.language),
         durationSec := Some(t.duration), progress := 1.0, error := None)
    case RecordRetry(e) => r.(status := Queued, error := Some(e))
    case Fail(e) => r.(status := Failed, error := Some(e))
  }

  /** UPDATE ... WHERE id = j: a job without a row is silently left alone. */
  function Write(rows: map<JobId, Row>, j: JobId, u: Update): map<JobId, Row> {
    if j in rows then rows[j := Updated(rows[j], u)] else rows
  }
}
