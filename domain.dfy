/** Value types shared by the hooks: the rows the app reads from its data
    store, a device coordinate, and the outcome of an asynchronous call to a
    collaborator (a resolved value or a thrown value). */
module Domain {

  datatype Option<+T> = None | Some(value: T)

  datatype SpotType = Shrine | Temple

  datatype SpotStatus = Active | Pending | Merged

  /** A shrine or temple row. `lat`/`lng` are degrees. */
  datatype Spot = Spot(
    id: string,
    name: string,
    lat: real,
    lng: real,
    spotType: SpotType,
    address: Option<string>,
    status: SpotStatus,
    createdByUserId: Option<string>,
    mergedIntoSpotId: Option<string>,
    createdAt: string,
    updatedAt: string)

  /** A user's recorded visit (goshuin stamp). */
  datatype Stamp = Stamp(
    id: string,
    userId: string,
    spotId: string,
    goshuinchoId: Option<string>,
    visitedAt: string,
    imagePath: string,
    memo: Option<string>,
    createdAt: string,
    updatedAt: string)

  /** A device position in degrees. */
  datatype Coordinate = Coordinate(latitude: real, longitude: real)

  /** What a rejected promise carries: an `Error` instance (with its
      `message`) or any other thrown value. */
  datatype Thrown = ErrorObject(message: string) | OtherValue

  /** How an awaited call to a collaborator settles. */
  datatype Outcome<+T> = Resolved(value: T) | Rejected(thrown: Thrown)

  /** `err instanceof Error ? err.message : fallback`. */
  function MessageOr(t: Thrown, fallback: string): (m: string)
    ensures t.ErrorObject? ==> m == t.message
    ensures t.OtherValue? ==> m == fallback
  {
    match t
    case ErrorObject(message) => message
    case OtherValue => fallback
  }
}
