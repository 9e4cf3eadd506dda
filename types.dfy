/** The shared record types of the application (src/types/index.ts). */
module Types {
  import opened Wrappers

  /** Degrees; the application performs no range check. */
  datatype Coordinates = Coordinates(latitude: real, longitude: real)

  datatype DisasterType = Earthquake | Flood | Hurricane | Tornado | Wildfire | Tsunami | Other

  datatype SeverityLevel = Critical | High | Moderate | Low {
    /** Position in the order low < moderate < high < critical. */
    function Rank(): nat {
      match this
      case Low => 0
      case Moderate => 1
      case High => 2
      case Critical => 3
    }
  }

  /** A disaster record. `severity` is stored, never derived from the
      readings. `area` is not declared by the interface, but every wildfire
      record carries it and the classifier reads it. */
  datatype DisasterEvent = DisasterEvent(
    id: string,
    title: string,
    kind: DisasterType,
    severity: SeverityLevel,
    coordinates: Coordinates,
    timestamp: int,             // epoch milliseconds
    description: string,
    source: string,
    url: Option<string>,
    magnitude: Option<real>,    // earthquakes
    waterLevel: Option<real>,   // floods, metres
    windSpeed: Option<real>,    // hurricanes and tornadoes, mph
    area: Option<real>)         // wildfires, acres

  /** The numeric fields a classifier reads from its `data` argument. */
  datatype Readings = Readings(
    magnitude: Option<real>,
    waterLevel: Option<real>,
    windSpeed: Option<real>,
    area: Option<real>)

  function ReadingsOf(e: DisasterEvent): Readings {
    Readings(e.magnitude, e.waterLevel, e.windSpeed, e.area)
  }

  /** `x >= t` in JavaScript: false when `x` is undefined. */
  predicate AtLeast(x: Option<real>, t: real) {
    x.Some? && x.value >= t
  }

  /** `x > t` in JavaScript: false when `x` is undefined. */
  predicate Above(x: Option<real>, t: real) {
    x.Some? && x.value > t
  }

  /** An absent reading is below every present one. */
  predicate ReadingLe(x: Option<real>, y: Option<real>) {
    x.None? || (y.Some? && x.value <= y.value)
  }

  /** Every reading of `a` is at most the same reading of `b`. */
  predicate ReadingsLe(a: Readings, b: Readings) {
    && ReadingLe(a.magnitude, b.magnitude)
    && ReadingLe(a.waterLevel, b.waterLevel)
    && ReadingLe(a.windSpeed, b.windSpeed)
    && ReadingLe(a.area, b.area)
  }

  datatype Shelter = Shelter(
    id: string,
    name: string,
    coordinates: Coordinates,
    address: string,
    capacity: int,
    occupancy: int,
    contact: string,
    amenities: seq<string>,
    openingTime: string,
    closingTime: string,
    active: bool)

  datatype SafetyTip = SafetyTip(
    id: string,
    disasterType: DisasterType,
    title: string,
    content: string,
    language: string)

  datatype NotificationMethod = Push | Sms | Email

  datatype Preferences = Preferences(
    notificationMethod: seq<NotificationMethod>,
    notificationRadius: real,   // km
    language: string)

  datatype User = User(
    id: string,
    email: string,
    name: Option<string>,
    phone: Option<string>,
    preferences: Preferences)
}
