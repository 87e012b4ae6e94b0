/**
 * backend/s3_utils.py: the older upload variant. The key keeps the
 * original file name, no size is measured, and its MIME table has no
 * entry for `pdf`.
 */
module S3Utils {
  import opened Wrappers
  import opened Http
  import opened ObjectStore
  import Text
  import S3Upload

  /** The extensions this variant's `get_content_type` lists; `pdf` is not one of them. */
  const Listed := ["mp4", "mov", "avi", "mp3", "wav", "txt", "doc", "docx", "srt", "vtt"]

  const Fallback := "application/octet-stream"

  /** `get_content_type(extension)`: an exact, case-sensitive dict lookup with a fallback. */
  function ContentType(extension: string): (t: string)
    ensures t == "application/octet-stream" <==> extension !in Listed
  {
    match extension
    case "mp4" => "video/mp4"
    case "mov" => "video/quicktime"
    case "avi" => "video/x-msvideo"
    case "mp3" => "audio/mpeg"
    case "wav" => "audio/wav"
    case "txt" => "text/plain"
    case "doc" => "application/msword"
    case "docx" => "application/vnd.openxmlformats-officedocument.wordprocessingml.document"
    case "srt" => "application/x-subrip"
    case "vtt" => "text/vtt"
    case _ => Fallback
  }

  /** The object key: under `uploads/`, a folder per order, then the original name unchanged. */
  function StorageKey(orderId: string, filename: string): string
  {
    "uploads/" + orderId + "/" + filename
  }

  /** The upload `upload_to_s3` hands to the SDK for the stream's bytes `body`. */
  function Request(body: seq<bv8>, orderId: string, filename: string): PutRequest
  {
    PutRequest(body, StorageKey(orderId, filename), ContentType(Text.Extension(filename)),
               [("original-filename", filename), ("order-id", orderId),
                ("upload-time", "2024-10-07T00:00:00Z")])
  }

  /**
   * `upload_to_s3(file, order_id, filename)`: the key on success, a 500
   * otherwise. `connect` is how building the client ends (it may raise
   * here), `put` how `upload_fileobj` ends for the request it is given.
   */
  function UploadToS3(body: seq<bv8>, orderId: string, filename: string,
                      connect: SdkOutcome, put: PutRequest -> SdkOutcome)
    : (r: Result<string, HttpError>)
    ensures r.Ok? <==> connect == Completed && put(Request(body, orderId, filename)) == Completed
    ensures r.Ok? ==> r.value == Request(body, orderId, filename).key
    ensures r.Err? ==> r.error.status == 500
  {
    var outcome := if connect == Completed then put(Request(body, orderId, filename)) else connect;
    match outcome
    case Completed => Ok(StorageKey(orderId, filename))
    case ClientError(message) => Err(Raise(500, "S3 upload failed: " + message))
    case OtherError(message) => Err(Raise(500, "Upload failed: " + message))
  }

  /** The key is a function of the order and the name alone, and parses back to both. */
  lemma StorageKeyLayout(orderId: string, filename: string)
    requires '/' !in orderId
    ensures ParseKey(StorageKey(orderId, filename)) == Some((orderId, filename))
  {
    ParseUploadKey(orderId, filename);
  }

  /** The two variants agree on every extension but `pdf`, which only the other one lists. */
  lemma ContentTypeVariants(extension: string)
    ensures extension != "pdf" ==> ContentType(extension) == S3Upload.ContentType(extension)
    ensures ContentType("pdf") == "application/octet-stream"
    ensures S3Upload.ContentType("pdf") == "application/pdf"
  {
  }
}
