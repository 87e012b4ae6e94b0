/** `ServiceOrder` of backend/models/order.py. */
module Orders {
  import opened Wrappers
  import Text

  datatype ServiceOrder = ServiceOrder(
    id: string,
    serviceType: string,
    fileName: string,
    originalFilename: string,
    status: string,
    createdAt: string,
    clientId: string,
    s3Key: Option<string>,
    fileSize: Option<nat>,
    fileType: Option<string>,
    instructions: Option<string>)

  /** `ORD-` followed by the first 8 characters of the UUID string `uuid`, upper-cased. */
  function OrderId(uuid: string): (id: string)
    ensures |uuid| >= 8 ==> |id| == 12
    ensures |id| >= 4 && id[..4] == "ORD-"
    ensures forall i :: 4 <= i < |id| ==> !Text.IsLowerAscii(id[i])
    ensures Text.Lower(id[4..]) == Text.Lower(Text.Take(uuid, 8))
  {
    var tail := Text.Upper(Text.Take(uuid, 8));
    Text.LowerOfUpper(Text.Take(uuid, 8));
    assert ("ORD-" + tail)[4..] == tail;
    "ORD-" + tail
  }

  /**
   * `ServiceOrder.create(service_type, client_id, filename)`; the UUID and
   * the `datetime.now().isoformat()` timestamp are inputs.
   */
  function Create(serviceType: string, clientId: string, filename: string, uuid: string, createdAt: string)
    : (o: ServiceOrder)
    ensures o.status == "pending"
    ensures o.id == OrderId(uuid)
    ensures o.fileName == filename && o.originalFilename == filename
    ensures o.serviceType == serviceType && o.clientId == clientId && o.createdAt == createdAt
    ensures o.s3Key.None? && o.fileSize.None? && o.fileType.None? && o.instructions.None?
  {
    ServiceOrder(OrderId(uuid), serviceType, filename, filename, "pending", createdAt, clientId,
                 None, None, None, None)
  }
}
