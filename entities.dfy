/**
 * The record shapes of the upload engine: a file entity, a chunk entity, the
 * five-valued upload status, and the small wrappers used for optional values
 * and for operations that may throw.
 *
 * A chunk refers to the file it belongs to by that file's id (an owner id),
 * never by an object reference; the records themselves are kept in id-keyed stores by
 * the uploader, so two buckets "holding the same object" hold the same id.
 */
module Entities {

  datatype Option<+T> = None | Some(value: T)

  /** The result of an operation that either returns a value or throws. */
  datatype Outcome<+T> = Return(value: T) | Throw(message: string)

  type Id = string

  datatype UploadStatus = Waiting | Uploading | Uploaded | Error | Invalid

  /**
   * A file's percentage as the engine assigns it: a literal (0 or 100), or
   * the quotient `part / whole * 100` kept as the two integers it is computed
   * from, so that no real arithmetic is needed to compare two assignments.
   */
  datatype Progress = Literal(percent: int) | Ratio(part: int, whole: int)

  /**
   * The number a percentage stands for. JavaScript yields NaN or Infinity for
   * a zero `whole`; that case is 0 here.
   */
  function PercentValue(p: Progress): real
  {
    match p
    case Literal(n) => n as real
    case Ratio(part, whole) => if whole == 0 then 0.0 else (part as real / whole as real) * 100.0
  }

  /** Whether a unit of work is a whole file or one chunk of a file. */
  datatype UploadType = FileUnit | ChunkUnit

  /** A browser `File`, as far as the uploaders read it: its name and byte size. */
  datatype File = File(name: string, size: int)

  /**
   * A file entity. `chunks` holds the ids of the file's chunks in index order
   * when the file is uploaded in chunks; `size` is the byte size of the
   * underlying payload; `progress` is the file's percentage.
   */
  datatype FileInfo = FileInfo(
    id: Id,
    size: nat,
    index: nat,
    chunks: Option<seq<Id>>,
    retryCount: int,
    progress: Progress,
    status: UploadStatus,
    loaded: int)

  /** A chunk entity: `belongFile` is the id of the owning file. */
  datatype ChunkInfo = ChunkInfo(
    id: Id,
    belongFile: Id,
    size: nat,
    index: nat,
    retryCount: int,
    status: UploadStatus,
    loaded: int)

  /** What an id lookup finds: the kind of entity and its id. */
  datatype InfoRef = InfoRef(kind: UploadType, id: Id)

  /** The chunk ids of a file, or none when the file is not chunked. */
  function ChunksOf(f: FileInfo): seq<Id>
  {
    if f.chunks.Some? then f.chunks.value else []
  }
}
