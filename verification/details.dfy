/** The booking logic of `src/pages/VehicleDetails.jsx`: the `booked` flag
    derived from the user's bookings, the guarded `handleBookNow` transition,
    the booking it posts, and the button's enabled/label rule. */
module VehicleDetails {
  import opened Wrappers
  import opened Domain
  import opened Seqs
  import Json
  import Api

  const LoadFailedMessage: string := "Failed to load vehicle details"
  const LoginMessage: string := "Please login to book a vehicle"
  const BookedMessage: string := "Vehicle booked successfully!"
  const BookFailedMessage: string := "Failed to book vehicle"

  /** `vehicle`, `loading` and `booked`. */
  datatype Details = Details(vehicle: Option<Vehicle>, loading: bool, booked: bool)

  function Initial(): Details {
    Details(None, true, false)
  }

  /** The reads the effect issues: the vehicle, and the user's bookings only
      when the user has an email. */
  function EffectCalls(routeId: string, session: Session): (calls: seq<Api.Call>)
    ensures |calls| >= 1 && calls[0] == Api.Get("/vehicles/" + routeId)
    ensures |calls| == 2 <==> HasEmail(session)
    ensures |calls| <= 2
    ensures HasEmail(session) ==> calls[1] == Api.Get("/my-bookings/" + session.value.email)
  {
    [Api.Get("/vehicles/" + routeId)]
    + if HasEmail(session) then [Api.Get("/my-bookings/" + session.value.email)] else []
  }

  function OnVehicleLoaded(d: Details, v: Vehicle): (r: Details)
    ensures r.vehicle == Some(v) && !r.loading && r.booked == d.booked
  {
    d.(vehicle := Some(v), loading := false)
  }

  /** The vehicle read rejected: the spinner goes, the vehicle stays absent. */
  function OnVehicleFailed(d: Details): (r: (Details, Notice))
    ensures r.0 == d.(loading := false) && r.1 == Alert(LoadFailedMessage)
  {
    (d.(loading := false), Alert(LoadFailedMessage))
  }

  function ForVehicle(routeId: string): Booking -> bool {
    (b: Booking) => b.vehicleId == routeId
  }

  /** The bookings read resolved: `booked` is whether any booking is for this route id. */
  function OnBookingsLoaded(d: Details, bookings: seq<Booking>, routeId: string): (r: Details)
    ensures r.booked <==> exists i :: 0 <= i < |bookings| && bookings[i].vehicleId == routeId
    ensures r.vehicle == d.vehicle && r.loading == d.loading
  {
    AnyMeansExists(bookings, ForVehicle(routeId));
    d.(booked := Any(bookings, ForVehicle(routeId)))
  }

  /** Without an email no bookings read happens, so `booked` keeps its initial `false`. */
  lemma NoEmailNeverBooked(routeId: string, session: Session, v: Vehicle)
    requires !HasEmail(session)
    ensures |EffectCalls(routeId, session)| == 1
    ensures !OnVehicleLoaded(Initial(), v).booked
  {
  }

  /** What `handleBookNow` does: nothing, reject for want of a session, or post a booking. */
  datatype BookStep = Ignored | LoginRequired(notice: Notice) | Submit(booking: Booking, call: Api.Call)

  /** The booking built from the current vehicle and the user; `now` is `new Date().toISOString()`. */
  function BookingFor(v: Vehicle, user: User, now: string): (b: Booking)
    ensures b.vehicleId == v.id && b.vehicleName == v.vehicleName && b.pricePerDay == v.pricePerDay
    ensures b.userEmail == user.email && b.bookingDate == now
    ensures b.userName == (if user.displayName != "" then user.displayName else user.email)
  {
    Booking(v.id, v.vehicleName, v.pricePerDay, user.email,
            if user.displayName != "" then user.displayName else user.email, now)
  }

  /** `handleBookNow`: the vehicle/booked guard first, the session check second.
      Availability is not checked here. */
  function BookNow(d: Details, session: Session, now: string): (step: BookStep)
    ensures d.vehicle.None? || d.booked ==> step == Ignored
    ensures d.vehicle.Some? && !d.booked && session.None? ==> step == LoginRequired(Alert(LoginMessage))
    ensures step.Submit? <==> d.vehicle.Some? && !d.booked && session.Some?
    ensures step.Submit? ==> step.booking == BookingFor(d.vehicle.value, session.value, now)
    ensures step.Submit? ==> step.call == Api.Post("/bookings", BookingToJson(step.booking))
  {
    if d.vehicle.None? || d.booked then Ignored
    else if session.None? then LoginRequired(Alert(LoginMessage))
    else
      var b := BookingFor(d.vehicle.value, session.value, now);
      Submit(b, Api.Post("/bookings", BookingToJson(b)))
  }

  /** The posted request carries exactly the booking built from the vehicle and user. */
  lemma SubmittedBookingDecodes(d: Details, user: User, now: string)
    requires d.vehicle.Some? && !d.booked
    ensures var step := BookNow(d, Some(user), now);
            && step.Submit?
            && step.call.options.body.Some?
            && BookingFromJson(step.call.options.body.value) == Some(BookingFor(d.vehicle.value, user, now))
  {
    BookingRoundTrip(BookingFor(d.vehicle.value, user, now));
  }

  /** The post settled: `booked` flips only on success. */
  function AfterBooking(d: Details, outcome: Result<Json.Json, Api.ApiError>): (r: (Details, Notice))
    ensures outcome.Success? ==> r.0 == d.(booked := true) && r.1 == Confirm(BookedMessage)
    ensures outcome.Failure? ==> r.0 == d
    ensures outcome.Failure? ==>
              r.1 == Alert(if Api.Message(outcome.error) != "" then Api.Message(outcome.error) else BookFailedMessage)
  {
    match outcome
    case Success(_) => (d.(booked := true), Confirm(BookedMessage))
    case Failure(e) =>
      var m := Api.Message(e);
      (d, Alert(if m != "" then m else BookFailedMessage))
  }

  /** After a confirmed booking a second attempt is ignored locally, with no request. */
  lemma SecondAttemptIgnored(d: Details, response: Json.Json, session: Session, now: string)
    ensures BookNow(AfterBooking(d, Success(response)).0, session, now) == Ignored
  {
  }

  /** A failed post leaves the state as it was, so the same attempt can be made again. */
  lemma FailureIsRetryable(d: Details, e: Api.ApiError, session: Session, now: string)
    ensures !AfterBooking(d, Failure(e)).0.booked <==> !d.booked
    ensures BookNow(AfterBooking(d, Failure(e)).0, session, now) == BookNow(d, session, now)
  {
  }

  /** The button is disabled when the vehicle is not available or already booked. */
  predicate ButtonEnabled(v: Vehicle, booked: bool) {
    v.availability == AvailableStatus && !booked
  }

  function ButtonLabel(v: Vehicle, booked: bool): (text: string)
    ensures text == "Already Booked" <==> booked
    ensures text == "Book Now" <==> ButtonEnabled(v, booked)
    ensures text == "Not Available" <==> !booked && v.availability != AvailableStatus
  {
    if booked then "Already Booked"
    else if v.availability == AvailableStatus then "Book Now"
    else "Not Available"
  }

  /** A vehicle marked Booked shows a disabled button whatever the viewer's booking history. */
  lemma BookedVehicleDisabled(v: Vehicle, booked: bool)
    requires v.availability == BookedStatus
    ensures !ButtonEnabled(v, booked)
    ensures ButtonLabel(v, booked) == (if booked then "Already Booked" else "Not Available")
  {
  }

  /** `handleBookNow` itself does not look at availability: invoked on a loaded
      vehicle marked Booked, with a user and no previous booking, it posts. */
  lemma BookNowIgnoresAvailability(v: Vehicle, user: User, now: string)
    requires v.availability == BookedStatus
    ensures !ButtonEnabled(v, false)
    ensures BookNow(Details(Some(v), false, false), Some(user), now).Submit?
  {
  }

  /** The enabled rule does not look at the session: an available vehicle shows
      an enabled button to an anonymous viewer, whose click is then rejected. */
  lemma EnabledWithoutSession(v: Vehicle, now: string)
    requires v.availability == AvailableStatus
    ensures ButtonEnabled(v, false)
    ensures BookNow(Details(Some(v), false, false), None, now) == LoginRequired(Alert(LoginMessage))
  {
  }
}
