/**
 * The object-storage SDK as the backend sees it. The SDK itself is not
 * modelled: an upload is a request handed to an oracle that either
 * completes it or raises.
 */
module ObjectStore {
  import opened Wrappers
  import Text

  /** What `upload_fileobj` is given: the stream's bytes, the key and its ExtraArgs. */
  datatype PutRequest = PutRequest(
    body: seq<bv8>,
    key: string,
    contentType: string,
    metadata: seq<(string, string)>)

  /** How an SDK call ends: it returns, raises a `ClientError`, or raises anything else. */
  datatype SdkOutcome = Completed | ClientError(message: string) | OtherError(message: string)

  /**
   * Reads a key of the shape `uploads/{order_id}/{name}` back into the
   * order id and the object name; both variants of the upload build keys
   * of that shape.
   */
  function ParseKey(key: string): Option<(string, string)>
  {
    var parts := Text.Split(key, '/');
    if |parts| >= 3 && parts[0] == "uploads" then Some((parts[1], Text.Join(parts[2..], '/')))
    else None
  }

  /** Any key built as `uploads/{order_id}/{name}` parses back to its two parts. */
  lemma ParseUploadKey(orderId: string, name: string)
    requires '/' !in orderId
    ensures ParseKey("uploads/" + orderId + "/" + name) == Some((orderId, name))
  {
    var key := "uploads/" + orderId + "/" + name;
    assert key == "uploads" + ['/'] + (orderId + ['/'] + name);
    Text.SplitAfterPiece("uploads", '/', orderId + ['/'] + name);
    Text.SplitAfterPiece(orderId, '/', name);
    var parts := Text.Split(key, '/');
    assert parts == ["uploads", orderId] + Text.Split(name, '/');
    assert parts[2..] == Text.Split(name, '/');
    Text.SplitJoin(name, '/');
  }
}
