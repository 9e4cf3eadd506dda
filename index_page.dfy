/** src/pages/Index.tsx: the landing page. Its critical and recent lists,
    `formatNumber` and `handleSelectDisaster` are the same code as on the
    dashboard and are modelled by the Dashboard module; what differs is the
    `nearbyDisasters` source list, the initial tab and the three-item sidebar. */
module Index {
  import opened Wrappers
  import opened Types
  import opened Seqs
  import opened Dashboard
  import Geolocation

  /** With a location the page calls `filterByDistance`, which `useDisasters`
      does not return: the call fails with a TypeError. */
  datatype PageError = FilterByDistanceIsUndefined

  /** `nearbyDisasters`. */
  function NearbyDisasters(location: Option<Coordinates>, disasters: seq<DisasterEvent>): (r: Result<seq<DisasterEvent>, PageError>)
    ensures r.Ok? <==> location.None?
    ensures r.Ok? ==> r.value == disasters
  {
    match location
    case None => Ok(disasters)
    case Some(_) => Err(FilterByDistanceIsUndefined)
  }

  /** As written, every page with a known location fails to compute its
      lists. */
  lemma NearbyWithLocationFails(loc: Coordinates, disasters: seq<DisasterEvent>)
    ensures NearbyDisasters(Some(loc), disasters) == Err(FilterByDistanceIsUndefined)
  {
  }

  /** The test the missing `filterByDistance(radius)` evidently stands for:
      the event lies within `radius` km of the user. */
  function WithinOf(dist: Geolocation.DistanceFn, center: Coordinates, radius: real): DisasterEvent -> bool {
    (e: DisasterEvent) => Geolocation.IsWithinRadius(dist, center, e.coordinates, radius)
  }

  /** `nearbyDisasters` as intended: the whole feed without a location, and
      the events within the radius of the location otherwise. */
  function IntendedNearbyDisasters(dist: Geolocation.DistanceFn, location: Option<Coordinates>,
                                   disasters: seq<DisasterEvent>, radius: real): (r: seq<DisasterEvent>)
    ensures IsSubseq(r, disasters)
    ensures location.None? ==> r == disasters
    ensures location.Some? ==>
      forall e :: e in r <==> e in disasters && Geolocation.IsWithinRadius(dist, location.value, e.coordinates, radius)
  {
    match location
    case None =>
      IsSubseqRefl(disasters);
      disasters
    case Some(loc) => Filter(disasters, WithinOf(dist, loc, radius))
  }

  /** Where the page as written computes a list, the intended one agrees. */
  lemma IntendedAgreesWhereDefined(dist: Geolocation.DistanceFn, location: Option<Coordinates>,
                                   disasters: seq<DisasterEvent>, radius: real)
    ensures NearbyDisasters(location, disasters).Ok? ==>
      NearbyDisasters(location, disasters).value == IntendedNearbyDisasters(dist, location, disasters, radius)
  {
  }

  /** `criticalAlerts` and `recentAlerts` of the page: the dashboard's
      filters applied to the intended nearby list. */
  function IndexCriticalAlerts(dist: Geolocation.DistanceFn, location: Option<Coordinates>,
                               disasters: seq<DisasterEvent>, radius: real): (r: seq<DisasterEvent>)
    ensures IsSubseq(r, IntendedNearbyDisasters(dist, location, disasters, radius))
    ensures forall e :: e in r <==> e in IntendedNearbyDisasters(dist, location, disasters, radius) && e.severity == Critical
    ensures forall e :: e in r ==> multiset(r)[e] == multiset(IntendedNearbyDisasters(dist, location, disasters, radius))[e]
  {
    CriticalAlerts(IntendedNearbyDisasters(dist, location, disasters, radius))
  }

  function IndexRecentAlerts(dist: Geolocation.DistanceFn, location: Option<Coordinates>,
                             disasters: seq<DisasterEvent>, radius: real, now: int): (r: seq<DisasterEvent>)
    ensures IsSubseq(r, IntendedNearbyDisasters(dist, location, disasters, radius))
    ensures forall e :: e in r <==> e in IntendedNearbyDisasters(dist, location, disasters, radius) && e.timestamp > now - OneDayMs
    ensures forall e :: e in r ==> multiset(r)[e] == multiset(IntendedNearbyDisasters(dist, location, disasters, radius))[e]
  {
    RecentAlerts(IntendedNearbyDisasters(dist, location, disasters, radius), now)
  }

  /** Every alert the page lists for a located user is within the radius,
      and a larger radius never drops one. */
  lemma IndexAlertsAreNearby(dist: Geolocation.DistanceFn, loc: Coordinates, disasters: seq<DisasterEvent>,
                             radius: real, radius': real, now: int, e: DisasterEvent)
    requires radius <= radius'
    ensures e in IndexCriticalAlerts(dist, Some(loc), disasters, radius) ==>
      Geolocation.IsWithinRadius(dist, loc, e.coordinates, radius) && e in IndexCriticalAlerts(dist, Some(loc), disasters, radius')
    ensures e in IndexRecentAlerts(dist, Some(loc), disasters, radius, now) ==>
      Geolocation.IsWithinRadius(dist, loc, e.coordinates, radius) && e in IndexRecentAlerts(dist, Some(loc), disasters, radius', now)
  {
  }

  /** Without a location the page's lists are the dashboard's lists of the
      whole feed. */
  lemma IndexAlertsWithoutLocation(dist: Geolocation.DistanceFn, disasters: seq<DisasterEvent>, radius: real, now: int)
    ensures IndexCriticalAlerts(dist, None, disasters, radius) == CriticalAlerts(disasters)
    ensures IndexRecentAlerts(dist, None, disasters, radius, now) == RecentAlerts(disasters, now)
  {
  }

  /** The sidebar lists `recentAlerts.slice(0, 3)`. */
  const IndexSidebarSize := 3

  function IndexSidebarAlerts(recent: seq<DisasterEvent>): (r: seq<DisasterEvent>)
    ensures |r| == if |recent| <= IndexSidebarSize then |recent| else IndexSidebarSize
    ensures r == recent[..|r|]
  {
    Prefix(recent, IndexSidebarSize)
  }

  /** The three alerts shown here are the first three the dashboard shows. */
  lemma IndexSidebarIsDashboardPrefix(recent: seq<DisasterEvent>)
    ensures IndexSidebarAlerts(recent) == SidebarAlerts(recent)[..|IndexSidebarAlerts(recent)|]
  {
    var r3, r5 := IndexSidebarAlerts(recent), SidebarAlerts(recent);
    assert |r3| <= |r5|;
    assert r5[..|r3|] == recent[..|r5|][..|r3|] == recent[..|r3|];
  }

  /** The page state. The radius of 100 km is never changed. */
  class IndexPage {
    var selectedDisaster: Option<DisasterEvent>
    var activeTab: string
    var radius: real

    /** The page opens on the alerts tab with nothing selected. */
    constructor ()
      ensures selectedDisaster == None && activeTab == "alerts" && radius == 100.0
    {
      selectedDisaster := None;
      activeTab := "alerts";
      radius := 100.0;
    }

    /** `handleSelectDisaster`: select `d` and switch to the map tab. */
    method SelectDisaster(d: DisasterEvent)
      modifies this
      ensures selectedDisaster == Some(d)
      ensures activeTab == "map"
      ensures radius == old(radius)
    {
      selectedDisaster := Some(d);
      if activeTab != "map" {
        activeTab := "map";
      }
    }

    /** `setActiveTab`, as the tab list and the "View" buttons call it. */
    method SetActiveTab(tab: string)
      modifies this
      ensures activeTab == tab
      ensures selectedDisaster == old(selectedDisaster) && radius == old(radius)
    {
      activeTab := tab;
    }
  }
}
