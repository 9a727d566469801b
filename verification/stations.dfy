/** frontend/src/pages/Stations.jsx: the station form's state, the create
    and update payloads, the delete guard and the loading flag. Requests are
    outcomes passed in; `parseFloat` and `Number.toString` are parameters. */
module Stations {
  import opened Wrappers
  import opened Records

  /** A station as the list returns it. */
  datatype Station = Station(
    id: int, name: string, code: string, latitude: real, longitude: real, masterEmail: string)

  /** The five text inputs of the form. */
  datatype Form = Form(name: string, code: string, latitude: string, longitude: string, masterEmail: string)

  const EmptyForm: Form := Form("", "", "", "", "")

  /** The page state that the handlers change. */
  datatype Page = Page(
    stations: seq<Station>,
    loading: bool,
    showAddForm: bool,
    editing: Option<Station>,
    error: string,
    success: string,
    form: Form)

  const InitialPage: Page := Page([], true, false, None, "", "", EmptyForm)

  /** `fetchStations`: the list on success, the error text on failure;
      loading ends either way. */
  function FetchStations(p: Page, response: Option<seq<Station>>): (r: Page)
    ensures !r.loading
    ensures response.Some? ==> r == p.(stations := response.value, loading := false)
    ensures response.None? ==> r == p.(error := "Failed to load stations", loading := false)
  {
    match response
    case Some(list) => p.(stations := list, loading := false)
    case None => p.(error := "Failed to load stations", loading := false)
  }

  /** The form fields by their input name. */
  datatype Field = Name | Code | Latitude | Longitude | MasterEmail

  function Value(f: Form, field: Field): string {
    match field
    case Name => f.name
    case Code => f.code
    case Latitude => f.latitude
    case Longitude => f.longitude
    case MasterEmail => f.masterEmail
  }

  /** `handleInputChange`: one field takes the typed value. */
  function Input(f: Form, field: Field, value: string): (r: Form)
    ensures Value(r, field) == value
    ensures forall other :: other != field ==> Value(r, other) == Value(f, other)
  {
    match field
    case Name => f.(name := value)
    case Code => f.(code := value)
    case Latitude => f.(latitude := value)
    case Longitude => f.(longitude := value)
    case MasterEmail => f.(masterEmail := value)
  }

  /** `resetForm`: the inputs empty, the form closed, no station being
      edited and no error; the list and the success text stay. */
  function ResetForm(p: Page): (r: Page)
    ensures forall field :: Value(r.form, field) == ""
    ensures !r.showAddForm && r.editing.None? && r.error == ""
    ensures r.stations == p.stations && r.success == p.success && r.loading == p.loading
  {
    p.(form := EmptyForm, showAddForm := false, editing := None, error := "")
  }

  /** The "Add New Station" button: an empty, open add form. */
  function AddNew(p: Page): (r: Page)
    ensures forall field :: Value(r.form, field) == ""
    ensures r.showAddForm && r.editing.None? && r.error == ""
    ensures FormVisible(r) && SubmitRoute(r) == Create
    ensures r.stations == p.stations && r.success == p.success
  {
    p.(showAddForm := true, editing := None, form := EmptyForm, error := "")
  }

  /** `startEdit`: the form holds the station's values, the coordinates as
      `toString` renders them, and the add form is hidden. */
  function StartEdit(p: Page, s: Station, toString: real -> string): (r: Page)
    ensures r.editing == Some(s) && !r.showAddForm
    ensures r.form == Form(s.name, s.code, toString(s.latitude), toString(s.longitude), s.masterEmail)
    ensures FormVisible(r) && SubmitRoute(r) == Update(s.id)
    ensures r.error == p.error && r.stations == p.stations
  {
    p.(editing := Some(s),
       form := Form(s.name, s.code, toString(s.latitude), toString(s.longitude), s.masterEmail),
       showAddForm := false)
  }

  /** `showAddForm || editingStation`. */
  predicate FormVisible(p: Page) {
    p.showAddForm || p.editing.Some?
  }

  datatype Route = Create | Update(id: int)

  /** The form submits to the update handler when editing, else to create. */
  function SubmitRoute(p: Page): (r: Route)
    ensures r.Update? <==> p.editing.Some?
    ensures r.Update? ==> r.id == p.editing.value.id
  {
    if p.editing.Some? then Update(p.editing.value.id) else Create
  }

  /** A JSON payload value; a `parseFloat` that gives NaN is `Number(None)`,
      which serialises as `null`. */
  datatype Json = Text(s: string) | Number(n: Option<real>)

  function Key(field: Field): string {
    match field
    case Name => "name"
    case Code => "code"
    case Latitude => "latitude"
    case Longitude => "longitude"
    case MasterEmail => "station_master_email"
  }

  /** A field's value in a payload: coordinates are parsed, the rest are
      sent as typed. */
  function Encode(f: Form, field: Field, parseFloat: string -> Option<real>): Json {
    if field == Latitude || field == Longitude then Number(parseFloat(Value(f, field)))
    else Text(Value(f, field))
  }

  /** `handleCreateStation`: every field is sent. */
  function CreatePayload(f: Form, parseFloat: string -> Option<real>): (r: map<string, Json>)
    ensures forall field :: Key(field) in r && r[Key(field)] == Encode(f, field, parseFloat)
    ensures forall k :: k in r ==> exists field :: Key(field) == k
  {
    map[Key(Name) := Encode(f, Name, parseFloat),
        Key(Code) := Encode(f, Code, parseFloat),
        Key(Latitude) := Encode(f, Latitude, parseFloat),
        Key(Longitude) := Encode(f, Longitude, parseFloat),
        Key(MasterEmail) := Encode(f, MasterEmail, parseFloat)]
  }

  /** `if (formData.x) updateData.x = ...` for one field. */
  function SendIfFilled(m: map<string, Json>, f: Form, field: Field, parseFloat: string -> Option<real>)
    : (r: map<string, Json>)
    ensures Value(f, field) != "" ==> r == m[Key(field) := Encode(f, field, parseFloat)]
    ensures Value(f, field) == "" ==> r == m
  {
    if Value(f, field) != "" then m[Key(field) := Encode(f, field, parseFloat)] else m
  }

  /** `handleUpdateStation`: a field is sent iff its input is not empty. */
  function UpdatePayload(f: Form, parseFloat: string -> Option<real>): (r: map<string, Json>)
    ensures forall field :: Key(field) in r <==> Value(f, field) != ""
    ensures forall field :: Key(field) in r ==> r[Key(field)] == Encode(f, field, parseFloat)
    ensures forall k :: k in r ==> exists field :: Key(field) == k
  {
    var m1 := SendIfFilled(map[], f, Name, parseFloat);
    var m2 := SendIfFilled(m1, f, Code, parseFloat);
    var m3 := SendIfFilled(m2, f, Latitude, parseFloat);
    var m4 := SendIfFilled(m3, f, Longitude, parseFloat);
    SendIfFilled(m4, f, MasterEmail, parseFloat)
  }

  /** An update carries a subset of what a create of the same form carries,
      and carries all of it once every input is filled in. */
  lemma UpdateIsPartialCreate(f: Form, parseFloat: string -> Option<real>)
    ensures forall k :: k in UpdatePayload(f, parseFloat) ==>
              k in CreatePayload(f, parseFloat) && UpdatePayload(f, parseFloat)[k] == CreatePayload(f, parseFloat)[k]
    ensures (forall field :: Value(f, field) != "") ==> UpdatePayload(f, parseFloat) == CreatePayload(f, parseFloat)
  {
  }

  /** The outcome of a create or update request: `Err` carries the server's
      `detail`, if any. */
  type Outcome = Result<(), Option<string>>

  /** A submitted form: on success the success text, a reset form and a
      reload of the list (`refetch`); on failure the error text and the form
      left as it was. */
  function AfterSubmit(p: Page, outcome: Outcome): (r: (Page, bool))
    ensures outcome.Ok? ==> r.0 == ResetForm(p.(error := "", success := SubmitSuccess(p))) && r.1
    ensures outcome.Err? ==>
              && r.0 == p.(error := OrText(outcome.error, SubmitFailure(p)), success := "")
              && !r.1
  {
    var cleared := p.(error := "", success := "");
    match outcome
    case Ok(_) => (ResetForm(cleared.(success := SubmitSuccess(p))), true)
    case Err(detail) => (cleared.(error := OrText(detail, SubmitFailure(p))), false)
  }

  function SubmitSuccess(p: Page): string {
    if p.editing.Some? then "Station updated successfully!" else "Station created successfully!"
  }

  function SubmitFailure(p: Page): string {
    if p.editing.Some? then "Failed to update station" else "Failed to create station"
  }

  /** `handleDeleteStation`: no request unless the user confirms. */
  function DeleteRequest(confirmed: bool, stationId: int): (r: Option<int>)
    ensures r.Some? <==> confirmed
    ensures r.Some? ==> r.value == stationId
  {
    if confirmed then Some(stationId) else None
  }

  /** A confirmed delete: on success the success text and a reload of the
      list, on failure the server's `detail` or the fixed text. */
  function AfterDelete(p: Page, outcome: Outcome): (r: (Page, bool))
    ensures r.1 <==> outcome.Ok?
    ensures outcome.Ok? ==> r.0.success == "Station deleted successfully!" && r.0.error == ""
    ensures outcome.Err? ==> r.0.success == "" && r.0.error == OrText(outcome.error, "Failed to delete station")
    ensures r.0.form == p.form && r.0.editing == p.editing && r.0.showAddForm == p.showAddForm
  {
    var cleared := p.(error := "", success := "");
    match outcome
    case Ok(_) => (cleared.(success := "Station deleted successfully!"), true)
    case Err(detail) => (cleared.(error := OrText(detail, "Failed to delete station")), false)
  }

  /** A successful edit closes the form: after it nothing is visible and the
      next submit would create. */
  lemma EditThenSaveCloses(p: Page, s: Station, toString: real -> string)
    ensures var r := AfterSubmit(StartEdit(p, s, toString), Ok(())).0;
            !FormVisible(r) && SubmitRoute(r) == Create && r.success == "Station updated successfully!"
  {
  }
}
