/**
 * backend/utils/s3_upload.py: the upload used by the files routes. The
 * object key names the order and a fresh UUID and keeps the lower-cased
 * extension; the file's size is measured by moving its cursor.
 */
module S3Upload {
  import opened Wrappers
  import opened Http
  import opened ObjectStore
  import Text

  /** The extensions `get_content_type` lists, `pdf` among them. */
  const Listed := ["mp4", "mov", "avi", "mp3", "wav", "txt", "doc", "docx", "srt", "vtt", "pdf"]

  const Fallback := "application/octet-stream"

  /** `get_content_type(extension)`: an exact, case-sensitive dict lookup with a fallback. */
  function ContentType(extension: string): (t: string)
    ensures t == "application/octet-stream" <==> extension !in Listed
  {
    match extension
    case "mp4" => "video/mp4"
    case "mov" => "video/quicktime"
    case "avi" => "video/x-msvideo"
    case "mp3" => "audio/mpeg"
    case "wav" => "audio/wav"
    case "txt" => "text/plain"
    case "doc" => "application/msword"
    case "docx" => "application/vnd.openxmlformats-officedocument.wordprocessingml.document"
    case "srt" => "application/x-subrip"
    case "vtt" => "text/vtt"
    case "pdf" => "application/pdf"
    case _ => Fallback
  }

  /** The object key: under `uploads/`, a folder per order, then a fresh UUID with the extension. */
  function StorageKey(orderId: string, uniqueId: string, extension: string): string
  {
    "uploads/" + orderId + "/" + uniqueId + "." + extension
  }

  /** The upload handed to the SDK for `original_filename`, with the stream's bytes `body`. */
  function Request(body: seq<bv8>, orderId: string, originalFilename: string, uniqueId: string): PutRequest
  {
    var extension := Text.Extension(originalFilename);
    PutRequest(body, StorageKey(orderId, uniqueId, extension), ContentType(extension),
               [("original-filename", originalFilename), ("order-id", orderId)])
  }

  /** The dict `upload_file_to_s3` returns. */
  datatype UploadResult = UploadResult(s3Key: string, fileSize: nat, fileType: string)

  /**
   * What `upload_file_to_s3` returns or raises for a file whose content is
   * `data`. `clientAvailable` is whether `get_s3_client` built a client;
   * `put` is how `upload_fileobj` ends for the request it is given.
   */
  function UploadOutcome(data: seq<bv8>, orderId: string, originalFilename: string, uniqueId: string,
                         clientAvailable: bool, put: PutRequest -> SdkOutcome)
    : (r: Result<UploadResult, HttpError>)
    ensures r.Ok? <==> clientAvailable && put(Request(data, orderId, originalFilename, uniqueId)) == Completed
    ensures r.Ok? ==> r.value.s3Key == Request(data, orderId, originalFilename, uniqueId).key
    ensures r.Ok? ==> r.value.fileSize == |data| && r.value.fileType == Text.Extension(originalFilename)
    ensures r.Err? ==> r.error.status == 500
  {
    if !clientAvailable then
      Err(Raise(500, "Upload failed: " + Raise(500, "S3 service unavailable").Message()))
    else
      var request := Request(data, orderId, originalFilename, uniqueId);
      match put(request)
      case Completed =>
        Ok(UploadResult(request.key, |data|, Text.Extension(originalFilename)))
      case ClientError(message) => Err(Raise(500, "S3 upload failed: " + message))
      case OtherError(message) => Err(Raise(500, "Upload failed: " + message))
  }

  /** The uploaded file's stream (`file.file`): fixed content and a cursor. */
  class FileCursor {
    const data: seq<bv8>
    var pos: nat

    constructor (content: seq<bv8>)
      ensures data == content && pos == 0
    {
      data := content;
      pos := 0;
    }

    /** `seek(offset)`, from the start. */
    method Seek(offset: nat)
      modifies this
      ensures pos == offset
    {
      pos := offset;
    }

    /** `seek(0, 2)`, to the end. */
    method SeekEnd()
      modifies this
      ensures pos == |data|
    {
      pos := |data|;
    }

    /** `tell()`. */
    method Tell() returns (p: nat)
      ensures p == pos
    {
      p := pos;
    }

    /** The bytes a read from the cursor yields. */
    function Remaining(): (rest: seq<bv8>)
      reads this
      ensures pos == 0 ==> rest == data
    {
      if pos <= |data| then data[pos..] else []
    }
  }

  /**
   * `upload_file_to_s3(file, order_id, original_filename)`. When a client
   * exists the size is measured by seeking to the end and back, so the
   * stream is handed over rewound.
   */
  method UploadFileToS3(file: FileCursor, orderId: string, originalFilename: string, uniqueId: string,
                        clientAvailable: bool, put: PutRequest -> SdkOutcome)
    returns (r: Result<UploadResult, HttpError>)
    modifies file
    ensures r == UploadOutcome(file.data, orderId, originalFilename, uniqueId, clientAvailable, put)
    ensures file.pos == if clientAvailable then 0 else old(file.pos)
    ensures r.Ok? ==> r.value.fileSize == |file.data|
  {
    if !clientAvailable {
      r := Err(Raise(500, "Upload failed: " + Raise(500, "S3 service unavailable").Message()));
      return;
    }
    var extension := Text.Extension(originalFilename);
    var uniqueFilename := uniqueId + "." + extension;
    var key := "uploads/" + orderId + "/" + uniqueFilename;
    assert key == StorageKey(orderId, uniqueId, extension);

    file.SeekEnd();
    var size := file.Tell();
    file.Seek(0);

    var metadata := [("original-filename", originalFilename), ("order-id", orderId)];
    var request := PutRequest(file.Remaining(), key, ContentType(extension), metadata);
    assert request == Request(file.data, orderId, originalFilename, uniqueId);
    match put(request) {
      case Completed =>
        r := Ok(UploadResult(key, size, extension));
      case ClientError(message) =>
        r := Err(Raise(500, "S3 upload failed: " + message));
      case OtherError(message) =>
        r := Err(Raise(500, "Upload failed: " + message));
    }
  }

  /**
   * The key names the order and keeps the file's extension: it parses back
   * to the order id and `{uuid}.{ext}`, and its own extension is the file's.
   */
  lemma StorageKeyLayout(orderId: string, uniqueId: string, filename: string)
    requires '/' !in orderId
    ensures ParseKey(StorageKey(orderId, uniqueId, Text.Extension(filename)))
            == Some((orderId, uniqueId + "." + Text.Extension(filename)))
    ensures Text.Extension(StorageKey(orderId, uniqueId, Text.Extension(filename))) == Text.Extension(filename)
  {
    var extension := Text.Extension(filename);
    var key := StorageKey(orderId, uniqueId, extension);
    assert key == "uploads/" + orderId + "/" + (uniqueId + "." + extension);
    ParseUploadKey(orderId, uniqueId + "." + extension);
    assert key == ("uploads/" + orderId + "/" + uniqueId) + "." + extension;
    Text.ExtensionOfDotted("uploads/" + orderId + "/" + uniqueId, extension);
    Text.LowerOfLower(extension);
  }

  /** Lookups are case-sensitive: an upper-case extension falls back. */
  lemma ContentTypeCaseSensitive()
    ensures ContentType("pdf") == "application/pdf"
    ensures ContentType("PDF") == "application/octet-stream"
    ensures ContentType("MP4") == "application/octet-stream"
  {
  }

  /** Uploads pass the lower-cased extension, so `Clip.MP4` is stored as `video/mp4`. */
  lemma UpperCaseNameGetsMimeType(body: seq<bv8>, orderId: string, uniqueId: string)
    ensures Request(body, orderId, "Clip.MP4", uniqueId).contentType == "video/mp4"
  {
    assert "Clip.MP4" == "Clip" + "." + "MP4";
    Text.ExtensionOfDotted("Clip", "MP4");
    assert Text.Lower("MP4") == "mp4";
  }

  /** The content type of an upload depends on the file name only up to case. */
  lemma ContentTypeIgnoresNameCase(body: seq<bv8>, orderId: string, f: string, g: string, uniqueId: string)
    requires Text.Lower(f) == Text.Lower(g)
    ensures Request(body, orderId, f, uniqueId).contentType == Request(body, orderId, g, uniqueId).contentType
    ensures Request(body, orderId, f, uniqueId).key == Request(body, orderId, g, uniqueId).key
  {
    Text.ExtensionIgnoresCase(f, g);
  }
}
