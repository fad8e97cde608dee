/** Value types shared by the scheduler, the trip store and the screens. */
module Common {

  /** A nullable value: `T | null` or an optional property (`x?: T`). */
  datatype Option<+T> = None | Some(value: T)

  /** A `{ lat, lng }` pair in decimal degrees. */
  datatype Location = Location(lat: real, lng: real)
}
