/** The records the shared pickup data provider hands to the dashboards: the
    fields the modelled statistics and buttons use, plus the descriptive fields
    of zones and routes. A worker's phone, email and role, which the worker
    table only displays, are not kept; an assignment keeps its worker and
    vehicle ids although no modelled statistic reads them. */
module Pickup {
  import opened Common

  /** A collection area. */
  datatype Zone = Zone(id: Id, name: string, areaCoverage: string)

  /** A path inside a zone; `estimatedTime` is free text such as "1 hour 30 minutes". */
  datatype Route = Route(id: Id, zoneId: Id, name: string, pathDetails: string, estimatedTime: string)

  /** A collection worker; `status` is free text, compared exactly by the dashboards. */
  datatype Worker = Worker(id: Id, name: string, status: string)

  /** A link from a route to the worker and vehicle that run it. */
  datatype Assignment = Assignment(id: Id, routeId: Id, workerId: Id, vehicleId: Id)
}
