/** src/utils/geolocation.ts: the radius test and the way a browser
    geolocation answer is turned into coordinates or an error message.
    The haversine distance is not modelled: it is passed in as `dist`. */
module Geolocation {
  import opened Types

  /** A distance in kilometres between two points; no property is assumed. */
  type DistanceFn = (Coordinates, Coordinates) -> real

  /** `isWithinRadius(center, point, radius)`. */
  predicate IsWithinRadius(dist: DistanceFn, center: Coordinates, point: Coordinates, radius: real) {
    dist(center, point) <= radius
  }

  /** The boundary is inclusive: a point exactly `radius` away is inside. */
  lemma WithinRadiusBoundary(dist: DistanceFn, center: Coordinates, point: Coordinates)
    ensures IsWithinRadius(dist, center, point, dist(center, point))
    ensures forall r: real :: r < dist(center, point) ==> !IsWithinRadius(dist, center, point, r)
  {
  }

  /** Growing the radius never excludes a point. */
  lemma WithinRadiusMonotone(dist: DistanceFn, center: Coordinates, point: Coordinates, r: real, r': real)
    requires r <= r'
    requires IsWithinRadius(dist, center, point, r)
    ensures IsWithinRadius(dist, center, point, r')
  {
  }

  /** The `code` constants of a GeolocationPositionError, as the W3C
      Geolocation API defines them. */
  const PermissionDenied := 1
  const PositionUnavailable := 2
  const Timeout := 3

  /** The message the error callback rejects with. */
  function ErrorMessage(code: int): (m: string)
    ensures code == PermissionDenied ==> m == "Permission denied for geolocation"
    ensures code == PositionUnavailable ==> m == "Location information is unavailable"
    ensures code == Timeout ==> m == "Request for user location timed out"
    ensures code !in {PermissionDenied, PositionUnavailable, Timeout} ==> m == "Unknown error occurred"
  {
    if code == PermissionDenied then "Permission denied for geolocation"
    else if code == PositionUnavailable then "Location information is unavailable"
    else if code == Timeout then "Request for user location timed out"
    else "Unknown error occurred"
  }

  /** The four messages are pairwise different, so a message identifies its cause. */
  lemma ErrorMessagesDistinct(c1: int, c2: int)
    requires c1 in {PermissionDenied, PositionUnavailable, Timeout}
    requires ErrorMessage(c1) == ErrorMessage(c2)
    ensures c1 == c2
  {
  }

  const UnsupportedMessage := "Geolocation is not supported by your browser"

  /** The options passed to `getCurrentPosition`. */
  datatype PositionOptions = PositionOptions(enableHighAccuracy: bool, timeoutMs: int, maximumAgeMs: int)

  const RequestOptions := PositionOptions(true, 10000, 10000)

  /** What the browser reports to one of the two callbacks. */
  datatype BrowserAnswer = Position(coords: Coordinates) | PositionError(code: int)

  /** How the promise settles. */
  datatype Settlement = Resolved(coordinates: Coordinates) | Rejected(message: string)

  /** One call of `requestGeolocation`: whether the browser was asked, with
      which options, and how the promise settled. */
  datatype GeoRequest = GeoRequest(asked: bool, options: PositionOptions, settled: Settlement)

  /** `requestGeolocation()` when `supported` says whether
      `navigator.geolocation` exists and `answer` is what the browser would
      report if asked. */
  function RequestGeolocation(supported: bool, answer: BrowserAnswer): (r: GeoRequest)
    ensures !supported ==> !r.asked && r.settled == Rejected(UnsupportedMessage)
    ensures supported ==> r.asked && r.options == RequestOptions
    ensures supported && answer.Position? ==> r.settled == Resolved(answer.coords)
    ensures supported && answer.PositionError? ==> r.settled == Rejected(ErrorMessage(answer.code))
  {
    if !supported then GeoRequest(false, RequestOptions, Rejected(UnsupportedMessage))
    else match answer
      case Position(c) => GeoRequest(true, RequestOptions, Resolved(c))
      case PositionError(code) => GeoRequest(true, RequestOptions, Rejected(ErrorMessage(code)))
  }

  /** Without the API the browser's answer is irrelevant. */
  lemma UnsupportedIgnoresAnswer(a: BrowserAnswer, b: BrowserAnswer)
    ensures RequestGeolocation(false, a) == RequestGeolocation(false, b)
  {
  }
}
