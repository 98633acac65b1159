/** The plain records of the program. */
module Structs {
  import opened Prelude
  import opened JsonValue

  /** A stored user profile: the id, the city and street address the user gave, and
      the coordinates of that address as text. */
  datatype UserData = UserData(id: string, city: string, addr: string, lat: string, lon: string)

  /** Coordinates as the transit API delivered them. Their rendering as decimal text is
      not modelled; the model keeps the JSON values. */
  datatype Location = Location(lat: Json, lon: Json)

  /** A transit stop. `distance` is -1 when the station is a departure's destination. */
  datatype Station = Station(id: string, name: string, location: Location, distance: int)

  /** One departure of a line from a stop. `planned` is the RFC 3339 text of the planned
      time and `delay` is in seconds. */
  datatype BusDeparture = BusDeparture(
    stopId: string,
    planned: string,
    delay: Option<int>,
    direction: string,
    name: string,
    destination: Station,
    currPosition: Option<Location>)
}
