/**
 * backend/routes/files.py: upload validation and registration of orders
 * in the in-memory `orders_db`, the download lookup and the order listing.
 */
module Files {
  import opened Wrappers
  import opened Http
  import opened Orders
  import opened ServiceCatalog
  import opened ObjectStore
  import Text
  import S3Upload

  /** The client every upload is registered for. */
  const DemoClient := "demo-client-1"

  /** The body of a successful `POST /api/files/upload`. */
  datatype UploadResponse = UploadResponse(
    orderId: string,
    serviceType: string,
    fileName: string,
    fileSize: nat,
    status: string,
    message: string)

  /** The body of a successful `GET /api/files/download/{order_id}`. */
  datatype DownloadResponse = DownloadResponse(downloadUrl: string, fileName: string, expiresIn: string)

  /**
   * The checks `upload_file` makes before anything is created: the service
   * must be in the catalog, and `.` followed by the file's lower-cased
   * extension must be one of its formats.
   */
  function CheckUpload(serviceType: string, filename: string): (r: Result<Service, HttpError>)
    ensures r.Ok? <==> Lookup(serviceType).Some?
                       && "." + Text.Extension(filename) in Lookup(serviceType).value.supportedFormats
    ensures r.Ok? ==> Lookup(serviceType) == Some(r.value)
    ensures Lookup(serviceType).None? ==> r == Err(Raise(400, "Invalid service type"))
    ensures r.Err? ==> r.error.status == 400
  {
    match Lookup(serviceType)
    case None => Err(Raise(400, "Invalid service type"))
    case Some(service) =>
      var extension := Text.Extension(filename);
      if "." + extension !in service.supportedFormats then
        Err(Raise(400, "File type ." + extension + " not supported for " + service.name))
      else
        Ok(service)
  }

  /** The checks, their error messages included, see the file name only up to case. */
  lemma CheckIgnoresCase(serviceType: string, f: string, g: string)
    requires Text.Lower(f) == Text.Lower(g)
    ensures CheckUpload(serviceType, f) == CheckUpload(serviceType, g)
  {
    Text.ExtensionIgnoresCase(f, g);
  }

  /** `NOTES.TXT` is a transcript upload like `notes.txt`. */
  lemma UpperCaseTxtAccepted()
    ensures CheckUpload("transcript_cleanup", "NOTES.TXT").Ok?
  {
    assert "NOTES.TXT" == "NOTES" + "." + "TXT";
    Text.ExtensionOfDotted("NOTES", "TXT");
    assert Text.Lower("TXT") == "txt";
    LookupEntries();
    assert "." + "txt" == ".txt";
  }

  /** The file of test_upload.py passes the checks. */
  lemma TranscriptTxtAccepted()
    ensures CheckUpload("transcript_cleanup", "test_transcript.txt").Ok?
  {
    assert "test_transcript.txt" == "test_transcript" + "." + "txt";
    Text.ExtensionOfDotted("test_transcript", "txt");
    assert Text.Lower("txt") == "txt";
    LookupEntries();
    assert "." + "txt" == ".txt";
  }

  /** A video is refused for transcript cleanup, naming the extension and the service. */
  lemma Mp4RefusedForTranscripts()
    ensures CheckUpload("transcript_cleanup", "clip.mp4")
            == Err(Raise(400, "File type .mp4" + " not supported for " + "Transcript Cleanup"))
  {
    assert "clip.mp4" == "clip" + "." + "mp4";
    Text.ExtensionOfDotted("clip", "mp4");
    assert Text.Lower("mp4") == "mp4";
    LookupEntries();
    assert "." + "mp4" == ".mp4";
    assert ".mp4" !in TranscriptCleanup.supportedFormats;
    assert "File type ." + "mp4" == "File type .mp4";
  }

  /** A name without `.` is checked as if all of it were the extension. */
  lemma NameWithoutDot(serviceType: string, filename: string)
    requires '.' !in filename
    ensures CheckUpload(serviceType, filename).Ok? <==>
              Lookup(serviceType).Some? && "." + Text.Lower(filename) in Lookup(serviceType).value.supportedFormats
  {
    Text.ExtensionWithoutDot(filename);
  }

  /** The new order once the storage upload has returned (backend/routes/files.py, lines 39-42). */
  function WithUpload(order: ServiceOrder, upload: S3Upload.UploadResult, instructions: Option<string>)
    : (o: ServiceOrder)
    ensures o.s3Key == Some(upload.s3Key) && o.fileSize == Some(upload.fileSize)
    ensures o.fileType == Some(upload.fileType) && o.instructions == instructions
    ensures o.id == order.id && o.serviceType == order.serviceType && o.status == order.status
    ensures o.fileName == order.fileName && o.originalFilename == order.originalFilename
    ensures o.clientId == order.clientId && o.createdAt == order.createdAt
  {
    order.(s3Key := Some(upload.s3Key), fileSize := Some(upload.fileSize),
           fileType := Some(upload.fileType), instructions := instructions)
  }

  /** What holds of every order `upload_file` stores. */
  ghost predicate IsStoredOrder(o: ServiceOrder)
  {
    && o.status == "pending"
    && o.clientId == DemoClient
    && o.fileName == o.originalFilename
    && o.s3Key.Some? && o.s3Key.value != ""
    && o.fileSize.Some?
    && o.fileType == Some(Text.Extension(o.originalFilename))
    && Lookup(o.serviceType).Some?
    && "." + o.fileType.value in Lookup(o.serviceType).value.supportedFormats
  }

  /** The position of the first order carrying `id`, if any. */
  function FindOrder(orders: seq<ServiceOrder>, id: string): (r: Option<nat>)
    ensures r.Some? ==> r.value < |orders| && orders[r.value].id == id
    ensures r.Some? ==> forall j :: 0 <= j < r.value ==> orders[j].id != id
    ensures r.None? ==> forall j :: 0 <= j < |orders| ==> orders[j].id != id
  {
    if orders == [] then None
    else if orders[0].id == id then Some(0)
    else
      match FindOrder(orders[1..], id)
      case None => None
      case Some(i) => Some(i + 1)
  }

  /** `orders_db`. */
  class OrdersDb {
    var orders: seq<ServiceOrder>

    /** No order is visible without its storage key, size and type. */
    ghost predicate Valid()
      reads this
    {
      forall i :: 0 <= i < |orders| ==> IsStoredOrder(orders[i])
    }

    constructor ()
      ensures orders == [] && Valid()
    {
      orders := [];
    }

    /**
     * `POST /api/files/upload`. The new order's UUID and timestamp, the
     * key's UUID, whether a storage client exists and how the SDK upload
     * ends are inputs.
     */
    method UploadFile(serviceType: string, filename: string, instructions: Option<string>,
                      file: S3Upload.FileCursor, orderUuid: string, createdAt: string, keyUuid: string,
                      clientAvailable: bool, put: PutRequest -> SdkOutcome)
      returns (r: Result<UploadResponse, HttpError>)
      requires Valid()
      modifies this, file
      ensures Valid()
      ensures r.Err? ==> orders == old(orders)
      ensures r.Ok? ==> |orders| == |old(orders)| + 1 && orders[..|old(orders)|] == old(orders)
      ensures r.Ok? ==> orders[|old(orders)|].id == r.value.orderId && r.value.status == "pending"
      ensures CheckUpload(serviceType, filename).Err? ==>
                r == Err(CheckUpload(serviceType, filename).error) && file.pos == old(file.pos)
      ensures CheckUpload(serviceType, filename).Ok? ==>
                var order := Create(serviceType, DemoClient, filename, orderUuid, createdAt);
                var upload := S3Upload.UploadOutcome(file.data, order.id, filename, keyUuid, clientAvailable, put);
                && (upload.Err? ==> r == Err(Raise(500, "Upload failed: " + upload.error.Message())))
                && (upload.Ok? ==>
                      && orders == old(orders) + [WithUpload(order, upload.value, instructions)]
                      && r == Ok(UploadResponse(order.id, serviceType, filename, upload.value.fileSize,
                                                "pending", "File uploaded successfully")))
    {
      var check := CheckUpload(serviceType, filename);
      if check.Err? {
        r := Err(check.error);
        return;
      }

      var newOrder := Create(serviceType, DemoClient, filename, orderUuid, createdAt);
      var upload := S3Upload.UploadFileToS3(file, newOrder.id, filename, keyUuid, clientAvailable, put);
      if upload.Err? {
        r := Err(Raise(500, "Upload failed: " + upload.error.Message()));
        return;
      }

      var result := upload.value;
      newOrder := WithUpload(newOrder, result, instructions);
      assert |result.s3Key| >= 8;
      assert IsStoredOrder(newOrder);
      orders := orders + [newOrder];
      r := Ok(UploadResponse(newOrder.id, serviceType, filename, result.fileSize,
                             "pending", "File uploaded successfully"));
    }

    /**
     * `GET /api/files/download/{order_id}` for the first order with that id.
     * `presign` is `generate_download_url`, which answers `None` on failure.
     */
    function DownloadFile(orderId: string, presign: string -> Option<string>)
      : (r: Result<DownloadResponse, HttpError>)
      reads this
      ensures FindOrder(orders, orderId).None? ==> r == Err(Raise(404, "Order not found"))
      ensures FindOrder(orders, orderId).Some? ==>
                var o := orders[FindOrder(orders, orderId).value];
                && (o.s3Key !in {None, Some("")} <==> r != Err(Raise(404, "File not found")))
                && (r.Ok? <==> o.s3Key !in {None, Some("")} && presign(o.s3Key.value) !in {None, Some("")})
                && (o.s3Key !in {None, Some("")} && presign(o.s3Key.value) in {None, Some("")} ==>
                      r == Err(Raise(500, "Failed to generate download URL")))
                && (r.Ok? ==> r.value == DownloadResponse(presign(o.s3Key.value).value, o.originalFilename, "1 hour"))
      ensures r.Err? ==> r.error.status in {404, 500}
    {
      match FindOrder(orders, orderId)
      case None => Err(Raise(404, "Order not found"))
      case Some(i) =>
        var order := orders[i];
        if order.s3Key.None? || order.s3Key.value == "" then Err(Raise(404, "File not found"))
        else
          var downloadUrl := presign(order.s3Key.value);
          if downloadUrl.None? || downloadUrl.value == "" then
            Err(Raise(500, "Failed to generate download URL"))
          else
            Ok(DownloadResponse(downloadUrl.value, order.originalFilename, "1 hour"))
    }

    /** `GET /api/files/orders`: every stored order, in the order they were stored. */
    function GetUserOrders(): (r: seq<ServiceOrder>)
      reads this
      ensures |r| == |orders| && forall i :: 0 <= i < |r| ==> r[i] == orders[i]
    {
      orders
    }
  }

  /** In a store `upload_file` has built, a download never fails for want of a key. */
  lemma StoredOrdersHaveFiles(db: OrdersDb, orderId: string, presign: string -> Option<string>)
    requires db.Valid()
    ensures db.DownloadFile(orderId, presign) != Err(Raise(404, "File not found"))
  {
    match FindOrder(db.orders, orderId)
    case None =>
    case Some(i) => assert IsStoredOrder(db.orders[i]);
  }

  /** The upload of test_upload.py: a `.txt` file for transcript cleanup becomes one pending order. */
  method UploadScenario() returns (status: string, stored: nat)
    ensures status == "pending" && stored == 1
  {
    var db := new OrdersDb();
    var file := new S3Upload.FileCursor([84, 69, 83, 84]);
    TranscriptTxtAccepted();
    var r := db.UploadFile("transcript_cleanup", "test_transcript.txt",
                           Some("Please clean up this transcript file"), file,
                           "0f8fad5b-d9cb-469f-a165-70867728950e", "2025-10-07T00:00:00",
                           "7c9e6679-7425-40de-944b-e07fc1f90ae7", true, _ => Completed);
    status := r.value.status;
    stored := |db.GetUserOrders()|;
  }
}
