/** The records the frontend receives from the API and the JavaScript
    value rules its components lean on (`x || fallback`, `user?.role`). */
module Records {
  import opened Wrappers

  /** A defect as the frontend reads it. The backend's response model does
      not carry `status` or `assigned_station_id`, so both are optional, and
      so are the nullable database columns. */
  datatype Defect = Defect(
    id: int,
    defectType: string,
    confidence: real,
    imageUrl: string,
    latitude: Option<real>,
    longitude: Option<real>,
    nearestStation: Option<string>,
    severity: string,
    rootCause: Option<string>,
    actionRequired: Option<string>,
    resolutionSteps: Option<string>,
    status: Option<string>,
    assignedStationId: Option<int>)

  /** The user returned by `/auth/me`. */
  datatype User = User(username: string, role: string, stationId: Option<int>)

  const AdminRole: string := "Admin"
  const StationMasterRole: string := "StationMaster"

  /** `user?.role === 'Admin'`: false when there is no user. */
  predicate IsAdmin(user: Option<User>) {
    user.Some? && user.value.role == AdminRole
  }

  /** JavaScript truthiness of an optional string: `null` and "" are false. */
  predicate TruthyText(o: Option<string>) {
    o.Some? && o.value != ""
  }

  /** JavaScript truthiness of an optional number: `null` and `0` are false. */
  predicate TruthyNumber(o: Option<int>) {
    o.Some? && o.value != 0
  }

  /** `s || fallback` on an optional string: `null` and "" give the fallback. */
  function OrText(s: Option<string>, fallback: string): (r: string)
    ensures TruthyText(s) ==> r == s.value
    ensures !TruthyText(s) ==> r == fallback
  {
    if TruthyText(s) then s.value else fallback
  }

  /** `x || 0` on an optional coordinate: `null` and `0` give 0 (NaN, also
      falsy, is not a value of `real`). */
  function OrZero(x: Option<real>): (r: real)
    ensures x.Some? ==> r == x.value
    ensures x.None? ==> r == 0.0
  {
    if x.Some? then x.value else 0.0
  }
}
