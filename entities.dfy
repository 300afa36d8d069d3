/**
 * The three stored records, as the view-models and the report generator use
 * them. Ids are Kotlin `Long`s, taken here as unbounded `int`s: the model
 * only stores, compares and renders them, and the 64-bit range is stated only
 * where routes are built (`Screen.Long`). Coordinates are `Double`s that the
 * model only stores and compares with null, so they are `real`s here.
 */
module Entities {
  import opened Wrappers

  /** The single profile row. */
  datatype User = User(id: int, name: string, address: string, vehicleNumber: string)

  /** The id a `UserEntity` constructed without one carries. */
  const DefaultUserId := 0

  /** One claim. The id is 0 until the database assigns one. */
  datatype Case = Case(
    id: int,
    incidentDate: int,
    authority: string,
    description: string,
    vehicleDamageDescription: string,
    compensation: real,
    status: string,
    incidentLatitude: Option<real>,
    incidentLongitude: Option<real>)

  /** One photo of a claim, with where and when it was taken. */
  datatype Evidence = Evidence(
    id: int,
    caseId: int,
    photoUri: string,
    latitude: real,
    longitude: real,
    timestamp: int)
}
