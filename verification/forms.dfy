/** The vehicle drafts of `src/pages/AddVehicle.jsx` and
    `src/pages/UpdateVehicle.jsx`: initial and loaded drafts, single-field
    edits, the POST and PUT payloads, and navigation after the write. */
module VehicleForms {
  import opened Wrappers
  import opened Domain
  import opened Json
  import Numbers
  import Api

  const AddedMessage: string := "Vehicle added successfully!"
  const AddFailedMessage: string := "Failed to add vehicle"
  const UpdatedMessage: string := "Vehicle updated successfully!"
  const UpdateFailedMessage: string := "Failed to update vehicle"
  const LoadFailedMessage: string := "Failed to load vehicle details"
  const AfterWritePath: string := "/my-vehicles"

  /** The form's `formData`; `pricePerDay` holds the input's text. */
  datatype Draft = Draft(
    vehicleName: string,
    owner: string,
    category: string,
    pricePerDay: string,
    location: string,
    availability: string,
    description: string,
    coverImage: string)

  datatype DraftField =
    | NameField | OwnerField | CategoryField | PriceField
    | LocationField | AvailabilityField | DescriptionField | CoverField

  /** The input `name` attribute of each field, and the payload key it becomes. */
  function Key(k: DraftField): string {
    match k
    case NameField => "vehicleName"
    case OwnerField => "owner"
    case CategoryField => "category"
    case PriceField => "pricePerDay"
    case LocationField => "location"
    case AvailabilityField => "availability"
    case DescriptionField => "description"
    case CoverField => "coverImage"
  }

  /** The eight payload keys of a draft. */
  function DraftKeys(): set<string> {
    {"vehicleName", "owner", "category", "pricePerDay", "location", "availability", "description", "coverImage"}
  }

  function FieldOf(d: Draft, k: DraftField): string {
    match k
    case NameField => d.vehicleName
    case OwnerField => d.owner
    case CategoryField => d.category
    case PriceField => d.pricePerDay
    case LocationField => d.location
    case AvailabilityField => d.availability
    case DescriptionField => d.description
    case CoverField => d.coverImage
  }

  /** `handleChange`: `{...formData, [name]: value}`, the same in both forms. */
  function SetField(d: Draft, k: DraftField, value: string): (r: Draft)
    ensures FieldOf(r, k) == value
    ensures forall other :: other != k ==> FieldOf(r, other) == FieldOf(d, other)
  {
    match k
    case NameField => d.(vehicleName := value)
    case OwnerField => d.(owner := value)
    case CategoryField => d.(category := value)
    case PriceField => d.(pricePerDay := value)
    case LocationField => d.(location := value)
    case AvailabilityField => d.(availability := value)
    case DescriptionField => d.(description := value)
    case CoverField => d.(coverImage := value)
  }

  /** The selects only ever hold one of their options. */
  predicate SelectsValid(d: Draft) {
    d.category in Categories && d.availability in Availabilities
  }

  /** The add form's first draft: owner from the display name, the first option of each select. */
  function InitialAddDraft(session: Session): (d: Draft)
    ensures SelectsValid(d) && d.category == "Sedan" && d.availability == AvailableStatus
    ensures d.owner == (if session.Some? then session.value.displayName else "")
    ensures forall k :: k != OwnerField && k != CategoryField && k != AvailabilityField ==> FieldOf(d, k) == ""
  {
    Draft("", if session.Some? then session.value.displayName else "", "Sedan", "", "", AvailableStatus, "", "")
  }

  /** The update form's draft before its load settles. */
  function DefaultUpdateDraft(): (d: Draft)
    ensures d == InitialAddDraft(None)
  {
    Draft("", "", "Sedan", "", "", AvailableStatus, "", "")
  }

  /** Choosing an option of a select keeps the selects valid; other fields do not touch them. */
  lemma EditKeepsSelectsValid(d: Draft, k: DraftField, value: string)
    requires SelectsValid(d)
    requires k == CategoryField ==> value in Categories
    requires k == AvailabilityField ==> value in Availabilities
    ensures SelectsValid(SetField(d, k, value))
  {
  }

  /** `JSON.stringify` of `parseFloat(text)` in hundredths: NaN is written as `null`. */
  function PriceJson(text: string): (j: Json)
    ensures Numbers.ParseNumber(text).Some? ==> j == JNum(Numbers.ParseNumber(text).value)
    ensures Numbers.ParseNumber(text).None? ==> j == JNull
  {
    match Numbers.ParseNumber(text)
    case Some(n) => JNum(n)
    case None => JNull
  }

  /** The value a field contributes to the payload: its text, or for the
      price `JSON.stringify` of the parsed number. */
  function Entry(d: Draft, k: DraftField): Json {
    if k == PriceField then PriceJson(d.pricePerDay) else JStr(FieldOf(d, k))
  }

  /** The draft's fields as a JSON object with `price` under `pricePerDay`. */
  function Fields(d: Draft, price: Json): (fields: map<string, Json>)
    ensures fields.Keys == DraftKeys()
    ensures fields["vehicleName"] == JStr(d.vehicleName) && fields["owner"] == JStr(d.owner)
    ensures fields["category"] == JStr(d.category) && fields["pricePerDay"] == price
    ensures fields["location"] == JStr(d.location) && fields["availability"] == JStr(d.availability)
    ensures fields["description"] == JStr(d.description) && fields["coverImage"] == JStr(d.coverImage)
  {
    map[
      "vehicleName" := JStr(d.vehicleName),
      "owner" := JStr(d.owner),
      "category" := JStr(d.category),
      "pricePerDay" := price,
      "location" := JStr(d.location),
      "availability" := JStr(d.availability),
      "description" := JStr(d.description),
      "coverImage" := JStr(d.coverImage)]
  }

  /** `{...formData, pricePerDay: parseFloat(formData.pricePerDay)}`: every
      field under its own key, the price parsed. */
  function DraftJson(d: Draft): (fields: map<string, Json>)
    ensures fields.Keys == DraftKeys()
    ensures forall k :: Key(k) in fields && fields[Key(k)] == Entry(d, k)
  {
    var fields := Fields(d, PriceJson(d.pricePerDay));
    forall k
      ensures Key(k) in fields && fields[Key(k)] == Entry(d, k)
    {
      FieldsEntry(d, PriceJson(d.pricePerDay), k);
    }
    fields
  }

  lemma FieldsEntry(d: Draft, price: Json, k: DraftField)
    ensures Key(k) in Fields(d, price)
    ensures Fields(d, price)[Key(k)] == if k == PriceField then price else JStr(FieldOf(d, k))
  {
    if k == NameField {
    } else if k == OwnerField {
    } else if k == CategoryField {
    } else if k == PriceField {
    } else if k == LocationField {
    } else if k == AvailabilityField {
    } else if k == DescriptionField {
    } else {
      assert k == CoverField;
    }
  }

  /** No draft key is nine characters long, so `userEmail` and `createdAt` are never draft keys. */
  lemma ExtraKeysAreNew()
    ensures "userEmail" !in DraftKeys() && "createdAt" !in DraftKeys()
    ensures forall k :: Key(k) != "userEmail" && Key(k) != "createdAt"
  {
    assert forall k :: |Key(k)| != 9;
  }

  /** The PUT body of the update form: the draft with the parsed price, nothing added. */
  function UpdatePayload(d: Draft): (j: Json)
    ensures j.JObj? && j.fields.Keys == DraftKeys()
    ensures "userEmail" !in j.fields && "createdAt" !in j.fields
    ensures forall k :: Key(k) in j.fields && j.fields[Key(k)] == Entry(d, k)
  {
    ExtraKeysAreNew();
    JObj(DraftJson(d))
  }

  /** The POST body of the add form: the update form's body for the same draft
      plus the session's email and the creation time `now`. */
  function AddPayload(d: Draft, user: User, now: string): (j: Json)
    ensures j.JObj? && j.fields.Keys == UpdatePayload(d).fields.Keys + {"userEmail", "createdAt"}
    ensures forall key :: key in UpdatePayload(d).fields ==> j.fields[key] == UpdatePayload(d).fields[key]
    ensures j.fields["userEmail"] == JStr(user.email) && j.fields["createdAt"] == JStr(now)
  {
    JObj(WithCreator(UpdatePayload(d).fields, user.email, now))
  }

  /** `{...base, userEmail, createdAt}` over a base holding neither key. */
  function WithCreator(base: map<string, Json>, email: string, now: string): (fields: map<string, Json>)
    requires "userEmail" !in base && "createdAt" !in base
    ensures fields.Keys == base.Keys + {"userEmail", "createdAt"}
    ensures forall key :: key in base ==> fields[key] == base[key]
    ensures fields["userEmail"] == JStr(email) && fields["createdAt"] == JStr(now)
  {
    var fields := base["userEmail" := JStr(email)]["createdAt" := JStr(now)];
    forall key | key in base
      ensures fields[key] == base[key]
    {
      assert key != "userEmail" && key != "createdAt";
    }
    fields
  }

  /** The headers `fetch` receives for a signed-in user holding `token`. */
  function SignedInHeaders(token: string): Api.Headers {
    map[Api.ContentTypeHeader := Api.JsonMediaType, Api.AuthorizationHeader := "Bearer " + token]
  }

  /** `post('/vehicles', vehicleData)`: for a signed-in user, a POST of the
      add payload to the vehicles collection with the JSON content type and
      the bearer credential, and no other header. */
  function AddCall(d: Draft, user: User, now: string): (c: Api.Call)
    ensures forall token :: Api.Prepare(c, Api.Token(token))
              == Success(Api.Request(Api.BaseUrl + "/vehicles", Some("POST"), SignedInHeaders(token),
                                     Some(AddPayload(d, user, now))))
  {
    var c := Api.Post("/vehicles", AddPayload(d, user, now));
    forall token
      ensures Api.Prepare(c, Api.Token(token)).value.headers == SignedInHeaders(token)
    {
      Api.WrapperHeaders(c, Api.Token(token));
    }
    c
  }

  /** `put('/vehicles/' + id, updatedVehicle)`: a PUT of the update payload to
      the route's vehicle, headers as for every signed-in request. */
  function UpdateCall(routeId: string, d: Draft): (c: Api.Call)
    ensures forall token :: Api.Prepare(c, Api.Token(token))
              == Success(Api.Request(Api.BaseUrl + ("/vehicles/" + routeId), Some("PUT"), SignedInHeaders(token),
                                     Some(UpdatePayload(d))))
  {
    var c := Api.Put("/vehicles/" + routeId, UpdatePayload(d));
    forall token
      ensures Api.Prepare(c, Api.Token(token)).value.headers == SignedInHeaders(token)
    {
      Api.WrapperHeaders(c, Api.Token(token));
    }
    c
  }

  /** Where a settled write leads: `/my-vehicles` only on success; on failure the form stays. */
  function AfterWrite(succeeded: bool, added: bool): (r: (Option<string>, Notice))
    ensures r.0.Some? <==> succeeded
    ensures succeeded ==> r.0 == Some(AfterWritePath)
    ensures r.1 == if succeeded then Confirm(if added then AddedMessage else UpdatedMessage)
                   else Alert(if added then AddFailedMessage else UpdateFailedMessage)
  {
    if succeeded then (Some(AfterWritePath), Confirm(if added then AddedMessage else UpdatedMessage))
    else (None, Alert(if added then AddFailedMessage else UpdateFailedMessage))
  }

  /** The update page: its draft and its spinner flag. */
  datatype UpdatePage = UpdatePage(draft: Draft, loading: bool)

  function InitialUpdatePage(): UpdatePage {
    UpdatePage(DefaultUpdateDraft(), true)
  }

  /** The loaded vehicle's eight fields copied into the draft. The price is a
      number there; `parseFloat` reads a number through its decimal text, so it
      is held as that text. */
  function LoadedDraft(v: Vehicle): (d: Draft)
    ensures d.vehicleName == v.vehicleName && d.owner == v.owner && d.category == v.category
    ensures d.location == v.location && d.availability == v.availability
    ensures d.description == v.description && d.coverImage == v.coverImage
    ensures Numbers.ParseNumber(d.pricePerDay) == Some(v.pricePerDay)
  {
    Numbers.ParseOfToText(v.pricePerDay);
    Draft(v.vehicleName, v.owner, v.category, Numbers.ToText(v.pricePerDay), v.location,
          v.availability, v.description, v.coverImage)
  }

  function OnLoaded(p: UpdatePage, v: Vehicle): (r: UpdatePage)
    ensures r.draft == LoadedDraft(v) && !r.loading
  {
    UpdatePage(LoadedDraft(v), false)
  }

  /** A failed load keeps the default draft and still clears the spinner. */
  function OnLoadFailed(p: UpdatePage): (r: (UpdatePage, Notice))
    ensures r.0.draft == p.draft && !r.0.loading && r.1 == Alert(LoadFailedMessage)
  {
    (p.(loading := false), Alert(LoadFailedMessage))
  }

  /** Submitting a loaded vehicle unedited sends back the vehicle's own values, price included. */
  lemma UneditedUpdateRoundTrip(routeId: string, v: Vehicle)
    ensures var c := UpdateCall(routeId, OnLoaded(InitialUpdatePage(), v).draft);
            && c.endpoint == "/vehicles/" + routeId
            && c.options.body.Some?
            && c.options.body.value.JObj?
            && c.options.body.value.fields[Key(PriceField)] == JNum(v.pricePerDay)
            && forall k :: k != PriceField ==> c.options.body.value.fields[Key(k)] == JStr(FieldOf(LoadedDraft(v), k))
  {
  }

  /** An empty price input is posted as `null` (NaN). */
  lemma EmptyPriceIsNull(d: Draft, user: User, now: string)
    requires d.pricePerDay == ""
    ensures AddPayload(d, user, now).fields[Key(PriceField)] == JNull
  {
    Numbers.ParseEmptyIsNaN();
  }

  /** Editing one field of a draft changes exactly that entry of the payload. */
  lemma EditChangesOneEntry(d: Draft, k: DraftField, value: string, other: DraftField)
    requires other != k && other != PriceField
    ensures UpdatePayload(SetField(d, k, value)).fields[Key(other)] == UpdatePayload(d).fields[Key(other)]
  {
  }
}
