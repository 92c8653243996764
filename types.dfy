/** The record shapes the application exchanges with its backend. */
module Types {
  import opened Wrappers

  /** IFeature: a named geometry, written as WKT text, owned by a user. */
  datatype FeatureRecord = FeatureRecord(id: int, name: string, wkt: string, userId: int)

  /** IUser, as held by the user store. */
  datatype UserRecord = UserRecord(id: int, fullname: string, username: string, role: string)

  /** IAuth: the session record returned by login and registration. */
  datatype AuthRecord = AuthRecord(id: Option<int>, fullname: string, role: string, token: string)

  /** A map coordinate; OpenLayers' floating-point pairs become integer pairs. */
  datatype Coord = Coord(x: int, y: int)
}
