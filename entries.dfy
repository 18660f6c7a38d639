/** The log entries the backend stores and the client displays. */
module Entries {
  import opened Values

  /** A latitude or longitude, kept as the JavaScript number's decimal text:
    * the client only copies coordinates around, it never computes with them. */
  type Coord = string

  /** A point on the map, as the form receives it in create mode. */
  datatype Location = Location(latitude: Coord, longitude: Coord)

  /** One travel-log entry as listed by the backend. The optional fields
    * (`comments`, `description`, `image`) keep whatever JavaScript value the
    * backend sent, `undefined` when the field is missing. `visitDate` is the
    * ISO timestamp the date input is filled from. */
  datatype LogEntry = LogEntry(
    id: string,
    title: string,
    comments: Value,
    description: Value,
    image: Value,
    visitDate: string,
    latitude: Coord,
    longitude: Coord)
}
