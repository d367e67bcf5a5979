/** The zone management panel: its three statistics and the zone ids its
    buttons hand to the admin shell. */
module ZoneManagement {
  import opened Common
  import opened Pickup

  /** The three cards at the top of the panel. */
  datatype ZoneStats = ZoneStats(totalZones: nat, zonesWithRoutes: nat, unassignedRoutes: nat)

  /** What a button of the panel asks the admin shell to do; `None` is the `null`
      the general buttons pass. */
  datatype ZoneRequest =
    | CreateZoneRequested
    | UpdateZoneRequested(zoneId: Option<Id>)
    | DeleteZoneRequested(zoneId: Option<Id>)

  /** `routes.map(route => route.zoneId)`. */
  function RouteZoneIds(routes: seq<Route>): (ids: seq<Id>)
    ensures |ids| == |routes|
    ensures forall i :: 0 <= i < |routes| ==> ids[i] == routes[i].zoneId
  {
    if routes == [] then []
    else RouteZoneIds(routes[..|routes| - 1]) + [routes[|routes| - 1].zoneId]
  }

  /** `zones.some(zone => zone.id === id)`. */
  predicate HasZone(zones: seq<Zone>, id: Id)
  {
    exists j :: 0 <= j < |zones| && zones[j].id == id
  }

  /** `new Set(routes.map(route => route.zoneId)).size`. */
  function ZonesWithRoutes(routes: seq<Route>): (n: nat)
    ensures n <= |routes|
    ensures n == 0 <==> routes == []
  {
    |Distinct(RouteZoneIds(routes))|
  }

  /** `routes.filter(route => !zones.some(zone => zone.id === route.zoneId)).length`. */
  function UnassignedRoutes(zones: seq<Zone>, routes: seq<Route>): (n: nat)
    ensures n <= |routes|
  {
    Count(routes, (r: Route) => !HasZone(zones, r.zoneId))
  }

  /** The statistics cards of the panel. */
  function Stats(zones: seq<Zone>, routes: seq<Route>): (s: ZoneStats)
    ensures s.totalZones == |zones|
    ensures s.zonesWithRoutes <= |routes|
    ensures s.zonesWithRoutes == 0 <==> routes == []
    ensures s.unassignedRoutes <= |routes|
  {
    ZoneStats(|zones|, ZonesWithRoutes(routes), UnassignedRoutes(zones, routes))
  }

  /** The Create, Update and Delete buttons above the table. */
  function ActionButtons(): seq<ZoneRequest>
  {
    [CreateZoneRequested, UpdateZoneRequested(None), DeleteZoneRequested(None)]
  }

  /** The edit and delete buttons on the row of `zone`. */
  function RowButtons(zone: Zone): seq<ZoneRequest>
  {
    [UpdateZoneRequested(Some(zone.id)), DeleteZoneRequested(Some(zone.id))]
  }

  /** "Zones with routes" counts every zone id some route names, whether or not
      a zone with that id exists. */
  lemma ZonesWithRoutesIds(zones: seq<Zone>, routes: seq<Route>)
    ensures ZonesWithRoutes(routes)
         == |set i | 0 <= i < |routes| :: routes[i].zoneId|
    ensures ZonesWithRoutes(routes) == Stats(zones, routes).zonesWithRoutes
  {
    var ids := RouteZoneIds(routes);
    var named := set i | 0 <= i < |routes| :: routes[i].zoneId;
    forall x ensures x in Distinct(ids) <==> x in named {
      if x in ids {
        var i :| 0 <= i < |ids| && ids[i] == x;
        assert routes[i].zoneId == x;
      }
    }
    assert Distinct(ids) == named;
  }

  /** A route whose zone id names no listed zone counts both as a zone with routes
      and as an unassigned route, so "Zones with routes" can exceed "Total zones". */
  lemma DanglingZoneIdCountedTwice(r: Route)
    ensures Stats([], [r]) == ZoneStats(0, 1, 1)
  {
    assert RouteZoneIds([r]) == [r.zoneId];
    assert Distinct([r.zoneId]) == {r.zoneId};
    UnassignedWithoutZones([r]);
  }

  /** A new route into a zone some route already uses leaves "Zones with routes" unchanged. */
  lemma ZonesWithRoutesAddPresent(routes: seq<Route>, r: Route)
    requires exists i :: 0 <= i < |routes| && routes[i].zoneId == r.zoneId
    ensures ZonesWithRoutes(routes + [r]) == ZonesWithRoutes(routes)
  {
    var i :| 0 <= i < |routes| && routes[i].zoneId == r.zoneId;
    var ids := RouteZoneIds(routes);
    assert RouteZoneIds(routes + [r]) == ids + [r.zoneId];
    assert ids[i] == r.zoneId;
    DistinctAppendPresent(ids, r.zoneId);
  }

  /** "Zones with routes" does not depend on the order of the routes. */
  lemma ZonesWithRoutesPermutation(a: seq<Route>, b: seq<Route>)
    requires multiset(a) == multiset(b)
    ensures ZonesWithRoutes(a) == ZonesWithRoutes(b)
  {
    var ia, ib := RouteZoneIds(a), RouteZoneIds(b);
    forall x ensures x in ia <==> x in ib {
      if x in ia {
        var i :| 0 <= i < |ia| && ia[i] == x;
        assert a[i] in multiset(b);
        var j :| 0 <= j < |b| && b[j] == a[i];
        assert ib[j] == x;
      }
      if x in ib {
        var j :| 0 <= j < |ib| && ib[j] == x;
        assert b[j] in multiset(a);
        var i :| 0 <= i < |a| && a[i] == b[j];
        assert ia[i] == x;
      }
    }
    assert Distinct(ia) == Distinct(ib);
  }

  /** With no zones every route is unassigned. */
  lemma UnassignedWithoutZones(routes: seq<Route>)
    ensures UnassignedRoutes([], routes) == |routes|
  {
    CountExtremes(routes, (r: Route) => !HasZone([], r.zoneId));
  }

  /** No route is unassigned exactly when every route names an existing zone. */
  lemma UnassignedZeroIff(zones: seq<Zone>, routes: seq<Route>)
    ensures UnassignedRoutes(zones, routes) == 0
        <==> forall i :: 0 <= i < |routes| ==> HasZone(zones, routes[i].zoneId)
  {
    CountExtremes(routes, (r: Route) => !HasZone(zones, r.zoneId));
  }

  /** Every route is either assigned to a listed zone or counted as unassigned. */
  lemma UnassignedPartition(zones: seq<Zone>, routes: seq<Route>)
    ensures UnassignedRoutes(zones, routes) + Count(routes, (r: Route) => HasZone(zones, r.zoneId))
         == |routes|
  {
    var inZone := (r: Route) => HasZone(zones, r.zoneId);
    CountComplement(routes, inZone);
    CountCongruent(routes, (x: Route) => !inZone(x), (r: Route) => !HasZone(zones, r.zoneId));
  }

  /** "Unassigned routes" depends neither on the order of the routes nor on the order of the zones. */
  lemma UnassignedPermutation(zones: seq<Zone>, zones': seq<Zone>, routes: seq<Route>, routes': seq<Route>)
    requires multiset(zones) == multiset(zones')
    requires multiset(routes) == multiset(routes')
    ensures UnassignedRoutes(zones, routes) == UnassignedRoutes(zones', routes')
  {
    forall id ensures HasZone(zones, id) <==> HasZone(zones', id) {
      if HasZone(zones, id) {
        var j :| 0 <= j < |zones| && zones[j].id == id;
        assert zones[j] in multiset(zones');
        var k :| 0 <= k < |zones'| && zones'[k] == zones[j];
      }
      if HasZone(zones', id) {
        var k :| 0 <= k < |zones'| && zones'[k].id == id;
        assert zones'[k] in multiset(zones);
        var j :| 0 <= j < |zones| && zones[j] == zones'[k];
      }
    }
    var p := (r: Route) => !HasZone(zones, r.zoneId);
    CountPermutation(routes, routes', p);
    CountCongruent(routes', p, (r: Route) => !HasZone(zones', r.zoneId));
  }
}
