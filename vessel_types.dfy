/** The dashboard's vessel and alert records (`app/types/index.ts`), shared
    by the dark-vessel rules and the vessel store. Optional properties are
    `Option`s; timestamps are integer milliseconds since the epoch. */
module VesselTypes {
  import opened Text

  datatype Status = Active | Dark | Alert {
    function Name(): string {
      match this
      case Active => "active"
      case Dark => "dark"
      case Alert => "alert"
    }
  }

  datatype Location = Location(lat: real, lng: real)

  /** One entry of `previousPositions`. */
  datatype Position = Position(lat: real, lng: real, timestamp: int, speed: real)

  datatype Vessel = Vessel(
    id: string,
    name: string,
    kind: string,
    status: Status,
    location: Location,
    speed: real,
    course: real,
    confidence: Option<real>,
    aisMatch: Option<bool>,
    timestamp: Option<string>,
    lastAisTransmission: Option<int>,
    previousPositions: Option<seq<Position>>,
    suspicious: Option<bool>)

  datatype AlertRecord = AlertRecord(
    id: string,
    kind: string,
    severity: string,
    timestamp: string,
    location: Location,
    description: string,
    vessel: Option<string>)
}
