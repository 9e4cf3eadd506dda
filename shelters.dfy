/** src/components/shelters/SheltersList.tsx: the search and nearby filters,
    the displayed list, the distance label, the occupancy badge and the
    empty-state message. The component's own haversine copy is passed in as
    `dist`. */
module Shelters {
  import opened Wrappers
  import opened Types
  import opened Seqs
  import Geolocation

  /** The component's `shelters` state: it starts as this list and is never updated. */
  function MockShelters(): seq<Shelter> {
    [ Shelter("shelter-1", "City Community Center", Coordinates(34.052235, -118.243683),
        "123 Main St, Los Angeles, CA 90012", 200, 45, "213-555-1234",
        ["Food", "Water", "Medical", "Wifi", "Beds"], "24/7", "24/7", true),
      Shelter("shelter-2", "Lincoln High School", Coordinates(34.082235, -118.253683),
        "456 Oak Ave, Los Angeles, CA 90042", 350, 120, "213-555-5678",
        ["Food", "Water", "Medical", "Showers"], "7:00 AM", "10:00 PM", true),
      Shelter("shelter-3", "Westside Church", Coordinates(34.062235, -118.263683),
        "789 Elm St, Los Angeles, CA 90025", 150, 30, "213-555-9101",
        ["Food", "Water", "Beds", "Pet Friendly"], "8:00 AM", "9:00 PM", true),
      Shelter("shelter-4", "East Valley Rec Center", Coordinates(34.042235, -118.223683),
        "321 Pine Rd, Los Angeles, CA 90032", 180, 95, "213-555-2345",
        ["Food", "Water", "Medical", "Charging Stations"], "24/7", "24/7", true),
      Shelter("shelter-5", "South Bay College", Coordinates(34.032235, -118.233683),
        "555 College Blvd, Los Angeles, CA 90003", 400, 210, "213-555-6789",
        ["Food", "Water", "Medical", "Wifi", "Showers", "Beds"], "7:00 AM", "11:00 PM", true) ]
  }

  /** `toLowerCase` on ASCII letters. */
  function LowerChar(c: char): char {
    if 'A' <= c <= 'Z' then (c - 'A' + 'a') as char else c
  }

  function ToLower(s: string): (r: string)
    ensures |r| == |s|
    ensures forall i :: 0 <= i < |s| ==> r[i] == LowerChar(s[i])
  {
    if s == [] then [] else [LowerChar(s[0])] + ToLower(s[1..])
  }

  /** `needle` occurs in `hay` starting at index `i`. */
  predicate OccursAt(hay: string, needle: string, i: int) {
    0 <= i && i + |needle| <= |hay| && hay[i..i + |needle|] == needle
  }

  /** An occurrence in the tail of `hay` is one in `hay`, one place later. */
  lemma OccursLater(hay: string, needle: string, i: int)
    requires |hay| > 0 && OccursAt(hay[1..], needle, i)
    ensures OccursAt(hay, needle, i + 1)
  {
    assert hay[i + 1..i + 1 + |needle|] == hay[1..][i..i + |needle|];
  }

  /** `hay.includes(needle)`. */
  function Includes(hay: string, needle: string): (b: bool)
    ensures b <==> exists i :: OccursAt(hay, needle, i)
    decreases |hay|
  {
    if needle <= hay then
      assert OccursAt(hay, needle, 0);
      true
    else if |hay| <= |needle| then
      false
    else
      var b := Includes(hay[1..], needle);
      assert forall i :: OccursAt(hay, needle, i) && i > 0 ==> OccursAt(hay[1..], needle, i - 1);
      if b then
        var i :| OccursAt(hay[1..], needle, i);
        OccursLater(hay, needle, i);
        true
      else
        false
  }

  lemma IncludesEmpty(hay: string)
    ensures Includes(hay, "")
  {
    assert OccursAt(hay, "", 0);
  }

  /** The search predicate: the lower-cased term occurs in the lower-cased
      name or address. */
  predicate MatchesSearch(s: Shelter, term: string) {
    Includes(ToLower(s.name), ToLower(term)) || Includes(ToLower(s.address), ToLower(term))
  }

  /** `filteredShelters`. */
  function FilteredShelters(shelters: seq<Shelter>, term: string): (r: seq<Shelter>)
    ensures IsSubseq(r, shelters)
    ensures forall s :: s in r <==> s in shelters && MatchesSearch(s, term)
    ensures forall s :: s in r ==> multiset(r)[s] == multiset(shelters)[s]
  {
    FilterCounts(shelters, (s: Shelter) => MatchesSearch(s, term));
    Filter(shelters, (s: Shelter) => MatchesSearch(s, term))
  }

  /** An empty search term keeps every shelter, in order. */
  lemma EmptySearchKeepsAll(shelters: seq<Shelter>)
    ensures FilteredShelters(shelters, "") == shelters
  {
    forall s | s in shelters ensures MatchesSearch(s, "") {
      IncludesEmpty(ToLower(s.name));
    }
    FilterKeepsAll(shelters, (s: Shelter) => MatchesSearch(s, ""));
  }

  /** The search ignores the case of ASCII letters in the term. */
  lemma SearchIgnoresCase(shelters: seq<Shelter>, term: string, term': string)
    requires ToLower(term) == ToLower(term')
    ensures FilteredShelters(shelters, term) == FilteredShelters(shelters, term')
    decreases |shelters|
  {
    if shelters != [] {
      SearchIgnoresCase(shelters[1..], term, term');
    }
  }

  /** The nearby radius in kilometres. */
  const NearbyRadiusKm := 10.0

  /** `nearbyShelters`: with no user location the list is empty. */
  function NearbyShelters(dist: Geolocation.DistanceFn, filtered: seq<Shelter>, userLocation: Option<Coordinates>): (r: seq<Shelter>)
    ensures IsSubseq(r, filtered)
    ensures userLocation == None ==> r == []
    ensures userLocation.Some? ==>
      forall s :: s in r <==> s in filtered && dist(userLocation.value, s.coordinates) <= NearbyRadiusKm
    ensures forall s :: s in r ==> multiset(r)[s] == multiset(filtered)[s]
  {
    match userLocation
    case None => []
    case Some(loc) =>
      FilterCounts(filtered, (s: Shelter) => dist(loc, s.coordinates) <= NearbyRadiusKm);
      Filter(filtered, (s: Shelter) => dist(loc, s.coordinates) <= NearbyRadiusKm)
  }

  /** The nearby test is `isWithinRadius` with radius 10. */
  lemma NearbyIsWithinRadius(dist: Geolocation.DistanceFn, filtered: seq<Shelter>, loc: Coordinates, s: Shelter)
    requires s in NearbyShelters(dist, filtered, Some(loc))
    ensures Geolocation.IsWithinRadius(dist, loc, s.coordinates, NearbyRadiusKm)
  {
  }

  datatype ActiveFilter = All | Nearby

  /** `displayedShelters`. */
  function DisplayedShelters(dist: Geolocation.DistanceFn, shelters: seq<Shelter>, term: string,
                             active: ActiveFilter, userLocation: Option<Coordinates>): (r: seq<Shelter>)
    ensures active == Nearby ==> r == NearbyShelters(dist, FilteredShelters(shelters, term), userLocation)
    ensures active == All ==> r == FilteredShelters(shelters, term)
    ensures IsSubseq(r, FilteredShelters(shelters, term))
  {
    var filtered := FilteredShelters(shelters, term);
    if active == Nearby then NearbyShelters(dist, filtered, userLocation)
    else
      IsSubseqRefl(filtered);
      filtered
  }

  /** What `getDistanceString` renders, before `toFixed` formatting. */
  datatype DistanceLabel = DistanceUnknown | Metres(m: real) | Kilometres(km: real)

  function DistanceString(dist: Geolocation.DistanceFn, userLocation: Option<Coordinates>, s: Shelter): (l: DistanceLabel)
    ensures userLocation == None <==> l == DistanceUnknown
    ensures l.Metres? <==> userLocation.Some? && dist(userLocation.value, s.coordinates) < 1.0
    ensures l.Metres? ==> l.m == dist(userLocation.value, s.coordinates) * 1000.0
    ensures l.Kilometres? ==> l.km == dist(userLocation.value, s.coordinates) && l.km >= 1.0
  {
    match userLocation
    case None => DistanceUnknown
    case Some(loc) =>
      var d := dist(loc, s.coordinates);
      if d < 1.0 then Metres(d * 1000.0) else Kilometres(d)
  }

  /** `(occupancy / capacity) * 100 >= k` in exact arithmetic, with
      JavaScript's division by zero: a positive occupancy over capacity 0 is
      Infinity (above every `k`), and 0 / 0 is NaN (never `>=`). */
  predicate PercentAtLeast(occupancy: int, capacity: int, k: int) {
    if capacity > 0 then occupancy * 100 >= k * capacity
    else if capacity < 0 then occupancy * 100 <= k * capacity
    else occupancy > 0
  }

  datatype OccupancyBadge = Available | ModerateOccupancy | HighCapacity | NearCapacity {
    function Rank(): nat {
      match this
      case Available => 0
      case ModerateOccupancy => 1
      case HighCapacity => 2
      case NearCapacity => 3
    }
    function Text(): string {
      match this
      case Available => "Available"
      case ModerateOccupancy => "Moderate"
      case HighCapacity => "High Capacity"
      case NearCapacity => "Near Capacity"
    }
  }

  /** `getOccupancyBadge`. */
  function OccupancyBadgeOf(s: Shelter): (b: OccupancyBadge)
    ensures s.capacity > 0 ==> (b == NearCapacity <==> s.occupancy * 100 >= 90 * s.capacity)
    ensures s.capacity > 0 ==> (b == HighCapacity <==> 75 * s.capacity <= s.occupancy * 100 < 90 * s.capacity)
    ensures s.capacity > 0 ==> (b == ModerateOccupancy <==> 50 * s.capacity <= s.occupancy * 100 < 75 * s.capacity)
    ensures s.capacity > 0 ==> (b == Available <==> s.occupancy * 100 < 50 * s.capacity)
  {
    if PercentAtLeast(s.occupancy, s.capacity, 90) then NearCapacity
    else if PercentAtLeast(s.occupancy, s.capacity, 75) then HighCapacity
    else if PercentAtLeast(s.occupancy, s.capacity, 50) then ModerateOccupancy
    else Available
  }

  /** For a fixed positive capacity, more occupants never give a lower badge. */
  lemma OccupancyBadgeMonotone(s: Shelter, occupancy': int)
    requires s.capacity > 0 && s.occupancy <= occupancy'
    ensures OccupancyBadgeOf(s).Rank() <= OccupancyBadgeOf(s.(occupancy := occupancy')).Rank()
  {
  }

  /** The empty capacity cases follow JavaScript's division. */
  lemma OccupancyBadgeZeroCapacity(s: Shelter)
    requires s.capacity == 0
    ensures OccupancyBadgeOf(s) == if s.occupancy > 0 then NearCapacity else Available
  {
  }

  /** The badges of the five mock shelters. */
  lemma MockShelterBadges()
    ensures OccupancyBadgeOf(MockShelters()[0]) == Available
    ensures OccupancyBadgeOf(MockShelters()[1]) == Available
    ensures OccupancyBadgeOf(MockShelters()[2]) == Available
    ensures OccupancyBadgeOf(MockShelters()[3]) == ModerateOccupancy
    ensures OccupancyBadgeOf(MockShelters()[4]) == ModerateOccupancy
  {
  }

  datatype EmptyMessage = NoSearchMatch | NoneNearby | NoneActive

  /** The message shown when the displayed list is empty. */
  function EmptyStateMessage(term: string, active: ActiveFilter, userLocation: Option<Coordinates>): (m: EmptyMessage)
    ensures term != "" ==> m == NoSearchMatch
    ensures term == "" && active == Nearby && userLocation.Some? ==> m == NoneNearby
    ensures m == NoneActive <==> term == "" && (active.All? || userLocation.None?)
  {
    if term != "" then NoSearchMatch
    else if active == Nearby && userLocation.Some? then NoneNearby
    else NoneActive
  }

  /** The nearby tab without a location shows an empty list, whatever the search. */
  lemma NearbyWithoutLocationIsEmpty(dist: Geolocation.DistanceFn, shelters: seq<Shelter>, term: string)
    ensures DisplayedShelters(dist, shelters, term, Nearby, None) == []
  {
  }
}
