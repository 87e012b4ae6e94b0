/** The read-only catalog routes of backend/routes/services.py. */
module ServiceRoutes {
  import opened Wrappers
  import opened ServiceCatalog
  import Tables

  /** The body of `GET /api/services/{id}`: the service's data, or an error object. */
  datatype ServiceReply = ServiceData(service: Service) | ServiceError(error: string)

  /** `GET /api/services`: one entry per catalog service, in catalog order. */
  function GetServices(): (r: seq<Service>)
    ensures |r| == |Services| == 3
    ensures forall i :: 0 <= i < |r| ==> r[i].id == Tables.Keys(Services)[i] && Lookup(r[i].id) == Some(r[i])
  {
    CatalogKeys();
    seq(|Services|, i requires 0 <= i < |Services| => Services[i].1)
  }

  /** `GET /api/services/{service_id}`: an unknown id answers with an error object, not a raise. */
  function GetService(serviceId: string): (r: ServiceReply)
    ensures r.ServiceData? <==> serviceId in Tables.Keys(Services)
    ensures r.ServiceData? ==> r.service.id == serviceId && (serviceId, r.service) in Services
    ensures r.ServiceError? ==> r.error == "Service not found"
  {
    CatalogKeys();
    match Lookup(serviceId)
    case None => ServiceError("Service not found")
    case Some(s) => ServiceData(s)
  }
}
