/** The records the pages exchange with the server: vehicles, bookings, the
    signed-in user, and the toast notices the pages raise. */
module Domain {
  import opened Wrappers
  import opened Json

  /** A vehicle as returned by `GET /vehicles...`. `pricePerDay` is held in
      hundredths (cents: 49.99 is 4999) and `createdAt` the parsed creation time in milliseconds. */
  datatype Vehicle = Vehicle(
    id: string,
    vehicleName: string,
    owner: string,
    category: string,
    pricePerDay: int,
    location: string,
    availability: string,
    description: string,
    coverImage: string,
    userEmail: string,
    createdAt: int)

  /** A booking: the vehicle's fields are copied in at booking time. */
  datatype Booking = Booking(
    vehicleId: string,
    vehicleName: string,
    pricePerDay: int,
    userEmail: string,
    userName: string,
    bookingDate: string)

  /** The signed-in user; the empty string stands for an absent (`null`) property. */
  datatype User = User(email: string, displayName: string)

  /** `user` from the auth context: `None` when nobody is signed in. */
  type Session = Option<User>

  /** A toast notice: `Confirm` for `toast.success`, `Alert` for `toast.error`. */
  datatype Notice = Confirm(text: string) | Alert(text: string)

  /** The options of the category and availability selects. */
  const Categories: seq<string> := ["Sedan", "SUV", "Electric", "Van", "Motorcycle"]
  const Availabilities: seq<string> := ["Available", "Booked"]
  const AvailableStatus: string := "Available"
  const BookedStatus: string := "Booked"

  /** `user?.email` is truthy. */
  predicate HasEmail(session: Session) {
    session.Some? && session.value.email != ""
  }

  /** The object posted to `/bookings`. */
  function BookingToJson(b: Booking): (j: Json)
    ensures j.JObj? && j.fields.Keys == {"vehicleId", "vehicleName", "pricePerDay", "userEmail", "userName", "bookingDate"}
  {
    JObj(map[
      "vehicleId" := JStr(b.vehicleId),
      "vehicleName" := JStr(b.vehicleName),
      "pricePerDay" := JNum(b.pricePerDay),
      "userEmail" := JStr(b.userEmail),
      "userName" := JStr(b.userName),
      "bookingDate" := JStr(b.bookingDate)])
  }

  function StringField(fields: map<string, Json>, k: string): Option<string> {
    if k in fields && fields[k].JStr? then Some(fields[k].s) else None
  }

  function NumberField(fields: map<string, Json>, k: string): Option<int> {
    if k in fields && fields[k].JNum? then Some(fields[k].n) else None
  }

  /** Reads a booking back from its JSON object; `None` when a field is missing
      or of the wrong kind. */
  function BookingFromJson(j: Json): Option<Booking> {
    if !j.JObj? then None
    else
      var f := j.fields;
      var vehicleId := StringField(f, "vehicleId");
      var vehicleName := StringField(f, "vehicleName");
      var price := NumberField(f, "pricePerDay");
      var email := StringField(f, "userEmail");
      var name := StringField(f, "userName");
      var date := StringField(f, "bookingDate");
      if vehicleId.Some? && vehicleName.Some? && price.Some? && email.Some? && name.Some? && date.Some?
      then Some(Booking(vehicleId.value, vehicleName.value, price.value, email.value, name.value, date.value))
      else None
  }

  /** The posted booking carries every field of the booking, unchanged. */
  lemma BookingRoundTrip(b: Booking)
    ensures BookingFromJson(BookingToJson(b)) == Some(b)
  {
  }
}
