# Forge Media client portal backend: upload, registration and lookup rules

This project models the backend of the Forge Media client portal: a FastAPI service written in Python.

- **Uploads.** A client submits a file for one of three services. The service must exist in the catalog, and the file's lower-cased extension must be one of that service's formats. The file then goes to object storage. Only after the storage upload succeeds is a `pending` order appended to the in-memory `orders_db`.
- **Orders.** Orders can be listed, and a download link can be requested by order id.
- **Users.** Accounts live in the in-memory `users_db`, keyed by email. Registration refuses duplicates. Login returns any known account and auto-registers an unknown email.
- **Admin and catalog.** An admin gate checks fixed HTTP Basic credentials, and two read-only routes expose the service catalog.

The model has one Dafny module per source file:

| module | file |
|---|---|
| `Files` | backend/routes/files.py |
| `S3Upload` | backend/utils/s3_upload.py |
| `S3Utils` | backend/s3_utils.py |
| `ServiceCatalog` | backend/models/service.py |
| `Orders` | backend/models/order.py |
| `AuthRoutes` | backend/routes/auth.py |
| `Users` | backend/models/user.py |
| `AdminAuth` | backend/utils/auth.py |
| `ServiceRoutes` | backend/routes/services.py |

Small shared modules hold the rest:
- `Wrappers`: Option and Result.
- `Text`: Python's `lower`, `upper`, `split(sep)`, slicing and `str(n)`.
- `Tables`: a dict literal without repeated keys, as an ordered association list.
- `Http`: `HTTPException` and its string form.
- `ObjectStore`: the request handed to the storage SDK, the ways an SDK call can end, and a parser for the `uploads/{order_id}/{name}` key layout.

The program's in-memory stores are classes:
- `orders_db` is `Files.OrdersDb`, holding a sequence.
- `users_db` is `AuthRoutes.UsersDb`, holding a map.

Each store has an invariant its methods preserve:
- every stored order has a non-empty storage key, a size and a file type its service accepts;
- every account is stored under its own email.

The uploaded file's stream is `S3Upload.FileCursor`: fixed content and a cursor that `seek`/`tell` move.

Values the program takes from its environment become inputs:
- fresh UUIDs and `datetime.now()` timestamps;
- whether a storage client could be built;
- how the SDK's `upload_fileobj` ends, as a function of the request it is given (`PutRequest -> SdkOutcome`);
- what `generate_download_url` returns for a key when it returns at all (`string -> Option<string>`).

Facts about the code that shape the model:
- The only order status any code sets is `"pending"` (backend/models/order.py:26, backend/routes/files.py:51). No code changes an order's status afterwards, so the model has no further states. The statuses `Transcription`, `Completed` and `Processing` appear only in mock dashboard data, in backend/main.py and in src/components/Dashboard.tsx, on records that are not orders.
- An unsupported extension is a 400 `HTTPException` whose message names the extension and the service.
- The order, and with it its id, is built before the storage upload. It is appended to `orders_db` only after the upload succeeds.
- `download_file` does not look at the order's status.

## Model

| member | source | states |
|---|---|---|
| `Text.Lower` | backend/routes/files.py:22 | `.lower()` keeps the length and maps each character; no ASCII capital remains |
| `Text.Split` | backend/routes/files.py:22 | `split('.')` gives at least one piece, and no piece holds the separator |
| `Text.SplitJoin` | backend/routes/files.py:22 | joining the pieces of a split on the same separator gives the string back |
| `Text.LastOfSplit` | backend/routes/files.py:22 | `split(sep)[-1]` is the suffix after the last separator, or the whole string when there is none |
| `Text.FirstOfSplit` | backend/routes/auth.py:38 | `split(sep)[0]` is the prefix before the first separator, or the whole string when there is none |
| `Text.Extension` | backend/routes/files.py:22 | the extension expression holds no `.` and no ASCII capital; utils/s3_upload.py:28 and s3_utils.py:19 use the same expression |
| `Text.ExtensionIgnoresCase` | backend/routes/files.py:22 | two names equal up to case have the same extension |
| `Text.ExtensionOfDotted` | backend/routes/files.py:22 | the extension of `stem.ext` is `ext` lower-cased, whatever dots the stem holds |
| `Text.ExtensionWithoutDot` | backend/routes/files.py:22 | a name without `.` has the whole name, lower-cased, as its extension |
| `Text.Upper` | backend/models/order.py:22 | `.upper()` keeps the length and maps each ASCII letter to its capital; no ASCII lower-case letter remains |
| `Text.Take` | backend/models/order.py:22 | the slice `[:8]`: the whole string when it is shorter than 8, else its first 8 characters |
| `Text.LowerOfUpper` | backend/models/order.py:22 | lower-casing an upper-cased string gives the string's lower-case form |
| `Tables.Get` | backend/routes/files.py:18-23 | a dict lookup finds a value exactly when the key is present, and the value is that of the key's first entry |
| `ObjectStore.ParseUploadKey` | backend/s3_utils.py:20 | a key `uploads/{order_id}/{name}` with a `/`-free order id parses back to the order id and the name |
| `ServiceCatalog.Lookup` | backend/models/service.py:12-34 | `SERVICES` knows exactly the three keys, and each entry's `id` is its key |
| `ServiceCatalog.CatalogKeys` | backend/models/service.py:12-34 | the catalog's keys, in order, are `transcript_cleanup`, `captions_cleanup`, `dubbing_voiceover`; every id equals its key |
| `ServiceCatalog.LookupEntries` | backend/models/service.py:12-34 | each key finds its own entry |
| `ServiceCatalog.FormatsWellFormed` | backend/models/service.py:18-32 | every supported format starts with `.` and is lower case |
| `ServiceCatalog.SubtitlesSharedByCleanups` | backend/models/service.py:18-25 | `.srt` and `.vtt` are accepted by both cleanup services |
| `ServiceCatalog.MediaOnlyForDubbing` | backend/models/service.py:18-32 | `.mp4` is a dubbing format, and no dubbing format is accepted by another service |
| `Orders.OrderId` | backend/models/order.py:22 | the id starts with `ORD-`, has 12 characters for a full UUID, has no lower-case ASCII letter after the prefix, and matches the UUID's first 8 characters up to case |
| `Orders.Create` | backend/models/order.py:19-29 | a new order is `pending`; file name and original file name are the given name; service type, client and timestamp are copied; key, size, type and instructions are `None` |
| `Users.Create` | backend/models/user.py:15-25 | a new user has the given email, name and company (`None` when omitted), the `Starter` plan and no admin rights |
| `AdminAuth.VerifyAdmin` | backend/utils/auth.py:11-21 | succeeds, returning the username, if and only if the username is `admin` and the password is `forge2024`; so a wrong username or a wrong password alone is refused; refusal is 401 `Incorrect admin credentials` with `WWW-Authenticate: Basic` |
| `ServiceRoutes.GetServices` | backend/routes/services.py:6-9 | three entries, one per catalog service, in catalog order |
| `ServiceRoutes.GetService` | backend/routes/services.py:11-15 | a known id gives that service's data; an unknown id gives the error object `Service not found` instead of raising |
| `S3Upload.StorageKey` | backend/utils/s3_upload.py:29-30 | the key is exactly `uploads/{order_id}/{uuid}.{ext}` |
| `S3Upload.Request` | backend/utils/s3_upload.py:38-49 | the upload handed to the SDK carries the stream's bytes, that key, the content type of the lower-cased extension and the metadata `original-filename` and `order-id` |
| `S3Upload.ContentType` | backend/utils/s3_upload.py:62-77 | the fallback `application/octet-stream` is answered exactly for extensions outside the 11 listed ones |
| `S3Upload.ContentTypeCaseSensitive` | backend/utils/s3_upload.py:64-77 | `pdf` maps to `application/pdf`; the lookup is exact, so `PDF` and `MP4` fall back |
| `S3Upload.UpperCaseNameGetsMimeType` | backend/utils/s3_upload.py:28-43 | because the upload passes the lower-cased extension, `Clip.MP4` is stored as `video/mp4` |
| `S3Upload.ContentTypeIgnoresNameCase` | backend/utils/s3_upload.py:28-43 | the key and the content type of an upload depend on the file name only up to case |
| `S3Upload.StorageKeyLayout` | backend/utils/s3_upload.py:28-30 | the key parses back to the order id and `{uuid}.{ext}`, and the key's own extension is the file's |
| `S3Upload.UploadOutcome` | backend/utils/s3_upload.py:20-60 | success exactly when a client exists and the SDK completes the request; a success carries the request's key, the stream's length and the lower-cased extension; every failure is a 500 |
| `S3Upload.FileCursor.Seek` | backend/utils/s3_upload.py:35 | `seek(offset)` puts the cursor at the offset |
| `S3Upload.FileCursor.SeekEnd` | backend/utils/s3_upload.py:33 | `seek(0, 2)` puts the cursor at the end of the content |
| `S3Upload.FileCursor.Tell` | backend/utils/s3_upload.py:34 | `tell()` reports the cursor |
| `S3Upload.FileCursor.Remaining` | backend/utils/s3_upload.py:38-39 | a rewound stream yields all of its content |
| `S3Upload.UploadFileToS3` | backend/utils/s3_upload.py:20-60 | returns what `UploadOutcome` describes; when a client exists the stream is left rewound, otherwise untouched; the reported size is the stream's length |
| `S3Utils.StorageKey` | backend/s3_utils.py:20 | the key is exactly `uploads/{order_id}/{filename}`, with the original name unchanged |
| `S3Utils.Request` | backend/s3_utils.py:23-35 | the upload handed to the SDK carries the bytes, that key, the content type of the lower-cased extension and the metadata `original-filename`, `order-id` and the fixed `upload-time` |
| `S3Utils.ContentType` | backend/s3_utils.py:44-57 | the fallback is answered exactly for extensions outside the 10 listed ones |
| `S3Utils.ContentTypeVariants` | backend/s3_utils.py:44-57 | the two tables agree on every extension except `pdf`, which only utils/s3_upload.py lists |
| `S3Utils.StorageKeyLayout` | backend/s3_utils.py:20 | the key is `uploads/{order_id}/{filename}` with the name unchanged: it parses back to both |
| `S3Utils.UploadToS3` | backend/s3_utils.py:14-42 | the key on success, exactly when building the client and the upload both complete; every failure is a 500 |
| `Http.HttpError.Message` | backend/routes/files.py:56 | `str(e)` of an `HTTPException` is its status in decimal, `: `, then its detail |
| `Files.CheckUpload` | backend/routes/files.py:17-29 | acceptance exactly when the service is known and `.` + lower-cased extension is one of its formats; unknown service: 400 `Invalid service type`; every refusal is a 400 |
| `Files.CheckIgnoresCase` | backend/routes/files.py:22-29 | names equal up to case get the same verdict and the same message |
| `Files.UpperCaseTxtAccepted` | backend/routes/files.py:22-25 | `NOTES.TXT` is accepted for `transcript_cleanup` |
| `Files.TranscriptTxtAccepted` | test_upload.py:19-29 | `test_transcript.txt` is accepted for `transcript_cleanup` |
| `Files.Mp4RefusedForTranscripts` | backend/routes/files.py:25-29 | `clip.mp4` for `transcript_cleanup` is a 400 `File type .mp4 not supported for Transcript Cleanup` |
| `Files.NameWithoutDot` | backend/routes/files.py:22-25 | a name without `.` is checked with the whole name as its extension |
| `Files.WithUpload` | backend/routes/files.py:39-42 | the stored order takes key, size and type from the upload result and the given instructions; every other field is kept |
| `Files.FindOrder` | backend/routes/files.py:61 | the position of the first order with the id, or none when no order has it |
| `Files.OrdersDb.constructor` | backend/routes/files.py:9 | `orders_db` starts empty |
| `Files.OrdersDb.UploadFile` | backend/routes/files.py:11-56 | a refused check returns its 400 and changes nothing; a failed upload returns 500 `Upload failed: …` and leaves the orders unchanged; a success appends exactly one order at the end, carrying the upload's key, size and type and the instructions, with earlier orders untouched, and returns status `pending` with that order's id and the uploaded size; every stored order keeps a non-empty key and an accepted type |
| `Files.OrdersDb.DownloadFile` | backend/routes/files.py:58-77 | looks at the first order with the id: 404 `Order not found` if there is none, 404 `File not found` exactly when its key is missing or empty, 500 `Failed to generate download URL` when the key exists but no URL is produced, else the URL with the original file name and `1 hour`; it only reads the store |
| `Files.OrdersDb.GetUserOrders` | backend/routes/files.py:79-81 | every stored order, in insertion order; it only reads the store |
| `Files.StoredOrdersHaveFiles` | backend/routes/files.py:34-66 | in a store built by uploads, a download never fails with `File not found` |
| `Files.UploadScenario` | test_upload.py:19-45 | one accepted `.txt` upload for `transcript_cleanup` answers `pending` and leaves one order listed |
| `AuthRoutes.NameFromEmail` | backend/routes/auth.py:38 | the auto-registration name is the text before the first `@`, or the whole email |
| `AuthRoutes.UsersDb.constructor` | backend/routes/auth.py:7 | `users_db` starts empty |
| `AuthRoutes.UsersDb.RegisterUser` | backend/routes/auth.py:9-26 | a known email is a 400 `User already exists` and changes nothing; a new email adds exactly one entry, under that email, with every other entry unchanged, and returns the stored user, `mock-jwt-token` and the success message |
| `AuthRoutes.UsersDb.LoginUser` | backend/routes/auth.py:28-38 | a known email returns its stored user whatever the password and changes nothing; an unknown one is registered with the name before `@` and company `""`; afterwards the email is always a key, and the response holds its user, whose email is the login email, on the `Starter` plan without admin rights, and `mock-jwt-token` |

## Left out

- Any order status other than `pending`: no modelled file sets one.
- boto3 itself: building the client, `upload_fileobj` and presigned-URL generation (`generate_download_url`, `generate_presigned_url`). These are foreign SDK and network calls, so they are inputs to the model.
- The bucket name and the AWS credentials read from the environment. They are not part of `PutRequest`.
- Files.OrdersDb.DownloadFile: `generate_download_url` catches only `ClientError`, and `download_file` calls it outside any `try`. botocore's `NoCredentialsError` and `ParamValidationError` (an unset `S3_BUCKET`) therefore escape, and FastAPI answers a bare 500 `Internal Server Error`, not 500 `Failed to generate download URL`. The model's `presign` always returns, so it does not model that raise. The store is unchanged in that case too.
- S3Upload.UploadFileToS3: how far the SDK's read moves the stream's cursor is not modelled. The model only states where the cursor is when the stream is handed over.
- Unicode case mapping: `lower()` and `upper()` are modelled on ASCII letters only. Python maps other letters too.
- Uniqueness of UUIDs and the timestamps' format. These are inputs, so two orders may share an id. The download then uses the first, as the code does.
- `secrets.compare_digest` is modelled as plain equality. Its constant-time behaviour is not modelled.
- AdminAuth.VerifyAdmin: `secrets.compare_digest` raises `TypeError` when a `str` argument holds a non-ASCII character; the model answers 401 there instead. FastAPI's `HTTPBasic` decodes the credentials as ASCII, so a request cannot reach that case.
- Pydantic's `.dict()` serialisation: a response holds the record itself.
- The text of foreign exceptions (`str(ClientError)` and others) is an input string. For FastAPI's `HTTPException`, `str(e)` is assumed to be `"<status>: <detail>"`, as Starlette renders it.
- FastAPI form parsing: a missing file name, or a form field sent without a value.
- Concurrency: requests are modelled one at a time.
- backend/main.py (mock dashboard, health check, CORS, static files), the frontend and the live HTTP script test_upload.py. Only the script's scenario is modelled.
