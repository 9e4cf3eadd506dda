/** src/hooks/useDisasters.tsx: the mock event records, the hook's own
    severity classifier (with a wildfire rule) and `fetchDisasterData`, which
    sorts the records newest first and publishes them. */
module Disasters {
  import opened Wrappers
  import opened Types
  import opened Seqs
  import Api

  /** The hook's `classifyDisaster`: the api.ts rules plus a wildfire rule
      on the burnt area. */
  function ClassifyHook(kind: DisasterType, data: Readings): (s: SeverityLevel)
    ensures s != Low
    ensures kind !in {Earthquake, Flood, Hurricane, Tornado, Wildfire} ==> s == Moderate
  {
    if kind == Earthquake then
      if AtLeast(data.magnitude, 6.0) then Critical
      else if AtLeast(data.magnitude, 4.5) then High
      else Moderate
    else if kind == Flood then
      if Above(data.waterLevel, 3.0) then Critical
      else if Above(data.waterLevel, 2.0) then High
      else Moderate
    else if kind == Hurricane || kind == Tornado then
      if Above(data.windSpeed, 110.0) then Critical
      else if Above(data.windSpeed, 74.0) then High
      else Moderate
    else if kind == Wildfire then
      if Above(data.area, 10000.0) then Critical
      else if Above(data.area, 5000.0) then High
      else Moderate
    else Moderate
  }

  /** Wildfire tiers are strict: an area of exactly 5000 acres is moderate. */
  lemma WildfireTiers(data: Readings, a: real)
    requires data.area == Some(a)
    ensures ClassifyHook(Wildfire, data) == Critical <==> a > 10000.0
    ensures ClassifyHook(Wildfire, data) == High <==> 5000.0 < a <= 10000.0
    ensures ClassifyHook(Wildfire, data) == Moderate <==> a <= 5000.0
    ensures ClassifyHook(Wildfire, data.(area := Some(5000.0))) == Moderate
  {
  }

  /** For a fixed type, larger readings never give a lower severity. */
  lemma ClassifyHookMonotone(kind: DisasterType, a: Readings, b: Readings)
    requires ReadingsLe(a, b)
    ensures ClassifyHook(kind, a).Rank() <= ClassifyHook(kind, b).Rank()
  {
  }

  /** The two copies of `classifyDisaster` agree on every type but wildfire,
      and on wildfire they disagree exactly when the area exceeds 5000. */
  lemma ClassifiersDiffer(kind: DisasterType, data: Readings)
    ensures kind != Wildfire ==> ClassifyHook(kind, data) == Api.ClassifyApi(kind, data)
    ensures ClassifyHook(kind, data) != Api.ClassifyApi(kind, data)
            <==> kind == Wildfire && Above(data.area, 5000.0)
  {
  }

  /** Display text of the mock records. */
  const Eq1Title := "M 6.2 - 20km SW of Los Angeles, CA"
  const Eq1Description :=
    "Strong earthquake reported near Los "
    + "Angeles. Multiple buildings affected."
  const Eq2Title := "M 4.7 - 15km E of San Francisco, CA"
  const Eq2Description :=
    "Moderate earthquake reported in San "
    + "Francisco Bay Area."
  const Eq4Title := "M 5.8 - 30km SE of Santiago, Chile"
  const Eq4Description := "Strong earthquake felt throughout central Chile."
  const Eq5Title := "M 4.2 - 25km S of Rome, Italy"
  const Eq5Description :=
    "Moderate earthquake reported south of "
    + "Rome. No major damage reported."
  const Eq6Title := "M 7.1 - 80km E of Tokyo, Japan"
  const Eq6Description :=
    "Major earthquake off the coast of "
    + "Japan. Tsunami warnings issued."
  const Eq7Title := "M 6.5 - 120km N of Jakarta, Indonesia"
  const Eq7Description :=
    "Strong earthquake felt across Java "
    + "island. Several buildings damaged."
  const Fl1Title := "Major Flooding - Miami, FL"
  const Fl1Description :=
    "Severe flooding reported across "
    + "Miami-Dade County. Evacuations in "
    + "progress."
  const Fl2Title := "Flash Floods - Phoenix, AZ"
  const Fl2Description :=
    "Flash flood warnings in effect for "
    + "Phoenix metropolitan area."
  const Fl3Title := "River Flooding - Amsterdam, Netherlands"
  const Fl3Description :=
    "Rising water levels in Amsterdam "
    + "canals. Some areas evacuated."
  const Fl4Title := "Monsoon Flooding - Mumbai, India"
  const Fl4Description :=
    "Heavy monsoon rains causing widespread "
    + "flooding across Mumbai."
  const Hu1Title := "Hurricane Delta - Category 3"
  const Hu1Description :=
    "Hurricane Delta approaching Gulf Coast "
    + "with winds of 115mph."
  const Hu2Title := "Typhoon Megi - Taiwan Strait"
  const Hu2Description :=
    "Typhoon Megi approaching Taiwan with "
    + "sustained winds of 100mph."
  const Hu3Title := "Cyclone Yasi - Queensland, Australia"
  const Hu3Description :=
    "Severe tropical cyclone approaching the "
    + "Queensland coast."
  const To1Title := "Tornado Warning - Oklahoma City"
  const To1Description :=
    "Multiple tornadoes reported in Oklahoma "
    + "City area. Take shelter immediately."
  const To2Title := "Tornado Outbreak - Kansas"
  const To2Description :=
    "Large tornado outbreak across central "
    + "Kansas. Multiple tornadoes confirmed."
  const Wf1Title := "Wildfire - Northern California"
  const Wf1Description :=
    "Large wildfire spreading rapidly. "
    + "Evacuations ordered for several "
    + "communities."
  const Wf2Title := "Bushfire - New South Wales, Australia"
  const Wf2Description :=
    "Bushfire approaching suburban areas "
    + "west of Sydney."
  const Wf3Title := "Forest Fire - Southern France"
  const Wf3Description :=
    "Forest fire in the hills north of "
    + "Marseille. Fire crews responding."

  /** The records of one mock array, built when the module is loaded at
      time `t0` (each timestamp is `Date.now()` minus an offset). */
  function MockEarthquakes(t0: int): seq<DisasterEvent> {
    [ DisasterEvent("eq-1", Eq1Title, Earthquake, Critical,
        Coordinates(34.052235, -118.243683), t0 - 3600000,
        Eq1Description,
        "USGS", Some("https://earthquake.usgs.gov"), Some(6.2), None, None, None),
      DisasterEvent("eq-2", Eq2Title, Earthquake, High,
        Coordinates(37.773972, -122.431297), t0 - 7200000,
        Eq2Description,
        "USGS", Some("https://earthquake.usgs.gov"), Some(4.7), None, None, None),
      DisasterEvent("eq-4", Eq4Title, Earthquake, High,
        Coordinates(-33.559987, -70.638504), t0 - 43200000,
        Eq4Description,
        "USGS", Some("https://earthquake.usgs.gov"), Some(5.8), None, None, None),
      DisasterEvent("eq-5", Eq5Title, Earthquake, Moderate,
        Coordinates(41.872389, 12.567380), t0 - 172800000,
        Eq5Description,
        "EMSC", Some("https://www.emsc-csem.org"), Some(4.2), None, None, None),
      DisasterEvent("eq-6", Eq6Title, Earthquake, Critical,
        Coordinates(35.689487, 139.691711), t0 - 86400000,
        Eq6Description,
        "JMA", Some("https://www.jma.go.jp/en/"), Some(7.1), None, None, None),
      DisasterEvent("eq-7", Eq7Title, Earthquake, Critical,
        Coordinates(-6.121435, 106.774124), t0 - 129600000,
        Eq7Description,
        "USGS", Some("https://earthquake.usgs.gov"), Some(6.5), None, None, None) ]
  }

  function MockFloods(t0: int): seq<DisasterEvent> {
    [ DisasterEvent("fl-1", Fl1Title, Flood, Critical,
        Coordinates(25.761681, -80.191788), t0 - 86400000,
        Fl1Description,
        "NOAA", Some("https://water.weather.gov"), None, Some(4.2), None, None),
      DisasterEvent("fl-2", Fl2Title, Flood, High,
        Coordinates(33.448376, -112.074036), t0 - 172800000,
        Fl2Description,
        "NWS", Some("https://weather.gov"), None, Some(2.8), None, None),
      DisasterEvent("fl-3", Fl3Title, Flood, High,
        Coordinates(52.377956, 4.897070), t0 - 129600000,
        Fl3Description,
        "KNMI", Some("https://www.knmi.nl"), None, Some(3.2), None, None),
      DisasterEvent("fl-4", Fl4Title, Flood, Critical,
        Coordinates(19.076090, 72.877426), t0 - 43200000,
        Fl4Description,
        "IMD", Some("https://mausam.imd.gov.in"), None, Some(4.7), None, None) ]
  }

  function MockHurricanes(t0: int): seq<DisasterEvent> {
    [ DisasterEvent("hu-1", Hu1Title, Hurricane, Critical,
        Coordinates(29.951065, -90.071533), t0 - 259200000,
        Hu1Description,
        "NHC", Some("https://nhc.noaa.gov"), None, None, Some(115.0), None),
      DisasterEvent("hu-2", Hu2Title, Hurricane, High,
        Coordinates(23.697809, 120.960515), t0 - 345600000,
        Hu2Description,
        "JMA", Some("https://www.jma.go.jp"), None, None, Some(100.0), None),
      DisasterEvent("hu-3", Hu3Title, Hurricane, Critical,
        Coordinates(-16.920334, 145.770859), t0 - 172800000,
        Hu3Description,
        "BOM", Some("http://www.bom.gov.au"), None, None, Some(130.0), None) ]
  }

  function MockTornadoes(t0: int): seq<DisasterEvent> {
    [ DisasterEvent("to-1", To1Title, Tornado, High,
        Coordinates(35.4675, -97.5161), t0 - 43200000,
        To1Description,
        "NWS", Some("https://weather.gov"), None, None, Some(85.0), None),
      DisasterEvent("to-2", To2Title, Tornado, Critical,
        Coordinates(39.011902, -98.4842465), t0 - 21600000,
        To2Description,
        "NWS", Some("https://weather.gov"), None, None, Some(120.0), None) ]
  }

  function MockWildfires(t0: int): seq<DisasterEvent> {
    [ DisasterEvent("wf-1", Wf1Title, Wildfire, Critical,
        Coordinates(40.798947, -122.004301), t0 - 129600000,
        Wf1Description,
        "CalFire", Some("https://www.fire.ca.gov"), None, None, None, Some(25000.0)),
      DisasterEvent("wf-2", Wf2Title, Wildfire, High,
        Coordinates(-33.865143, 151.209900), t0 - 345600000,
        Wf2Description,
        "NSW RFS", Some("https://www.rfs.nsw.gov.au"), None, None, None, Some(12000.0)),
      DisasterEvent("wf-3", Wf3Title, Wildfire, Moderate,
        Coordinates(43.296482, 5.369779), t0 - 172800000,
        Wf3Description,
        "Météo-France", Some("http://www.meteofrance.com"), None, None, None, Some(5000.0)) ]
  }

  /** `[...mockEarthquakes, ...mockFloods, ...mockHurricanes, ...mockTornadoes, ...mockWildfires]`. */
  function MockData(t0: int): seq<DisasterEvent> {
    MockEarthquakes(t0) + MockFloods(t0) + MockHurricanes(t0) + MockTornadoes(t0) + MockWildfires(t0)
  }

  /** The stored severity is not the classifier's: fl-3 (3.2 m of water) and
      wf-2 (12000 acres) are stored as "high" but classify as "critical". */
  lemma StoredSeverityIsNotDerived(t0: int)
    ensures var e := MockFloods(t0)[2];
      e.id == "fl-3" && e.severity == High && ClassifyHook(e.kind, ReadingsOf(e)) == Critical
    ensures var e := MockWildfires(t0)[1];
      e.id == "wf-2" && e.severity == High && ClassifyHook(e.kind, ReadingsOf(e)) == Critical
  {
  }

  /** The stored severity is the hook classifier's, or the record is one of
      the two known exceptions. */
  predicate SeverityAgrees(e: DisasterEvent) {
    e.id in {"fl-3", "wf-2"} || e.severity == ClassifyHook(e.kind, ReadingsOf(e))
  }

  lemma EarthquakeSeveritiesAgree(t0: int)
    ensures forall e :: e in MockEarthquakes(t0) ==> SeverityAgrees(e)
  {
  }

  lemma FloodSeveritiesAgree(t0: int)
    ensures forall e :: e in MockFloods(t0) ==> SeverityAgrees(e)
  {
  }

  lemma StormSeveritiesAgree(t0: int)
    ensures forall e :: e in MockHurricanes(t0) + MockTornadoes(t0) ==> SeverityAgrees(e)
  {
  }

  lemma WildfireSeveritiesAgree(t0: int)
    ensures forall e :: e in MockWildfires(t0) ==> SeverityAgrees(e)
  {
  }

  /** Every record other than fl-3 and wf-2 carries the severity the hook's
      classifier gives it. */
  lemma OtherStoredSeveritiesAgree(t0: int)
    ensures forall e :: e in MockData(t0) ==> SeverityAgrees(e)
  {
    EarthquakeSeveritiesAgree(t0);
    FloodSeveritiesAgree(t0);
    StormSeveritiesAgree(t0);
    WildfireSeveritiesAgree(t0);
  }

  /** Newest first: timestamps never increase along the sequence. */
  predicate NewestFirst(s: seq<DisasterEvent>) {
    forall i, j :: 0 <= i < j < |s| ==> s[i].timestamp >= s[j].timestamp
  }

  /** Exchanges two neighbouring elements. */
  method SwapDown(a: array<DisasterEvent>, j: int)
    requires 0 < j < a.Length
    modifies a
    ensures a[j - 1] == old(a[j]) && a[j] == old(a[j - 1])
    ensures forall k :: 0 <= k < a.Length && k != j - 1 && k != j ==> a[k] == old(a[k])
    ensures multiset(a[..]) == old(multiset(a[..]))
  {
    a[j - 1], a[j] := a[j], a[j - 1];
  }

  /** `array.sort((a, b) => b.timestamp - a.timestamp)` in place; an
      insertion sort, which like the JavaScript sort is stable. */
  method SortNewestFirst(a: array<DisasterEvent>)
    modifies a
    ensures NewestFirst(a[..])
    ensures multiset(a[..]) == old(multiset(a[..]))
  {
    var i := 0;
    while i < a.Length
      invariant 0 <= i <= a.Length
      invariant forall p, q :: 0 <= p < q < i ==> a[p].timestamp >= a[q].timestamp
      invariant multiset(a[..]) == old(multiset(a[..]))
    {
      var j := i;
      while j > 0 && a[j - 1].timestamp < a[j].timestamp
        invariant 0 <= j <= i
        invariant forall p, q :: 0 <= p < q <= i && p != j && q != j ==> a[p].timestamp >= a[q].timestamp
        invariant forall q :: j < q <= i ==> a[j].timestamp >= a[q].timestamp
        invariant multiset(a[..]) == old(multiset(a[..]))
      {
        SwapDown(a, j);
        j := j - 1;
      }
      i := i + 1;
    }
  }

  /** `[...xs]`: a fresh array holding the elements of `s`. */
  method ToArray(s: seq<DisasterEvent>) returns (a: array<DisasterEvent>)
    ensures fresh(a) && a[..] == s
  {
    a := new DisasterEvent[|s|](i requires 0 <= i < |s| => s[i]);
  }

  /** The hook's state: `disasters`, `loading` and `error`. */
  class DisasterFeed {
    var disasters: seq<DisasterEvent>
    var loading: bool
    var error: Option<string>

    /** The initial `useState` values. */
    constructor ()
      ensures disasters == [] && loading && error == None
    {
      disasters := [];
      loading := true;
      error := None;
    }

    /** `fetchDisasterData` on the records built at load time `t0`: the
        published list is the concatenated mock records, newest first. */
    method FetchDisasterData(t0: int)
      modifies this
      ensures multiset(disasters) == multiset(MockData(t0))
      ensures NewestFirst(disasters)
      ensures !loading && error == None
    {
      loading := true;
      error := None;
      Publish(MockData(t0));
    }

    /** The steps after `setError(null)`: copy, sort, publish. */
    method Publish(data: seq<DisasterEvent>)
      modifies this
      ensures multiset(disasters) == multiset(data)
      ensures NewestFirst(disasters)
      ensures !loading && error == old(error)
    {
      var a := ToArray(data);
      SortNewestFirst(a);
      disasters := a[..];
      loading := false;
    }
  }
}
