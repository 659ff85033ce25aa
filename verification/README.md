# TravelEase client: a Dafny model of its page logic

TravelEase is a vehicle-rental web client. Its pages list vehicles and let a
signed-in user book them, register an account, and add, update or delete
their own vehicles. Each page holds state and data logic, and this project
models that logic as immutable records and pure functions, with proofs
about them.

- `Api` (`src/utils/api.js`) models the request client.
  - It merges headers and attaches the bearer credential iff a user is signed in.
  - It builds the URL from the fixed base, and classifies the reply into the parsed body or an error.
  - The identity provider's answer and the network's reply are parameters.
  - The four verb wrappers are stated through `Api.WrapperRequests` and `Api.WrapperHeaders`.
- `Listing` (`src/pages/AllVehicles.jsx`) models the filter record with its single-key update and reset.
  - It derives the visible list: a case-insensitive name search, an exact category, and a case-insensitive location match, all conjoined.
  - An optional stable sort follows, by price (either direction) or by creation time.
- `VehicleDetails` (`src/pages/VehicleDetails.jsx`) models the `booked` flag, which is derived from the user's bookings.
  - `handleBookNow` is a guarded transition: the vehicle/booked guard comes before the session check.
  - It builds the booking that is posted, and flips `booked` only on success.
  - It models the button's enabled/label rule.
  - As in the source, `handleBookNow` never checks availability, and the button's `disabled` rule never checks the session.
- `Register` (`src/pages/Register.jsx`) models the password policy and the per-field error clearing.
  - Submit runs in order: policy check, then `register`, then `updateUserProfile`, then navigation.
- `Carousel` (`src/pages/Home.jsx`) models the cyclic slide index with next, previous and jump.
  - The timer runs only for a non-empty list, and the controls show only for more than one slide.
  - It models the image and alt-text fallbacks of the current slide.
- `MyVehicles` (`src/pages/MyVehicles.jsx`) models the guarded load and the two-step delete modal.
  - The delete callbacks use the id and the list captured when Delete was pressed, so a Cancel while the request is in flight does not stop the removal.
- `VehicleForms` (`src/pages/AddVehicle.jsx`, `src/pages/UpdateVehicle.jsx`) models the initial and loaded drafts and single-field edits.
  - It builds the POST and PUT payloads and the requests that carry them.
  - After a write, the page navigates only on success.

The supporting modules:

- `Wrappers` holds `Option` and `Result`.
- `Text` holds ASCII lower-casing, `includes`, `join`, decimal digits, and `length` in UTF-16 code units.
- `Numbers` holds numbers as counts of hundredths (49.99 is 4999), `String(x)` for them, and `parseFloat` with fraction and exponent.
- `Seqs` holds filtering and a stable insertion sort.
- `Json` holds parsed JSON values with JavaScript truthiness.
- `Domain` holds vehicles, bookings, the user, the session and toast notices.

Some inputs become explicit parameters:

- Network replies and identity-provider outcomes are parameters of the transitions that consume them.
- `new Date().toISOString()` is a parameter `now`.
- Toasts are returned as `Notice` values and navigation as an optional path.

## Model

| member | source | states |
|---|---|---|
| Api.MergeHeaders | src/utils/api.js:11-19 | Content-Type is `application/json` unless the caller supplies it. With a token, Authorization is `Bearer <token>` over any caller value; without one, Authorization is present iff the caller gave it, with the caller's value. Every other caller header is kept, and no other header is added |
| Api.Prepare | src/utils/api.js:8-24 | A token failure rejects with that error before anything is sent. Otherwise the URL is the base URL followed by the endpoint, verb and body are passed through, and the headers are the caller's headers merged with the token exactly as `MergeHeaders` states (a token iff a user is signed in). Authorization is present iff a user is signed in or the caller set it |
| Api.FailureOf | src/utils/api.js:26-29 | For a non-OK reply: a `null` body yields the TypeError of reading `error`; a non-empty string `error` becomes the message; a body with no truthy `error` yields "API request failed" |
| Api.Classify | src/utils/api.js:26-32 | Resolves iff the reply is OK with a parseable body, and then resolves with that body unchanged. Transport failure, unparseable body and non-OK replies each map to their error |
| Api.ApiCall | src/utils/api.js:6-37 | A request reaches `fetch` iff the token could be obtained. When one is sent, the outcome is exactly the classified reply; when none is, it is the token error. Every error reaches the caller unchanged |
| Api.WrapperRequests | src/utils/api.js:40-65 | `get` sends no verb and no body; `post` and `put` send their verb with the data as body; `del` sends DELETE with no body. All of them target the base URL followed by the endpoint |
| Api.WrapperHeaders | src/utils/api.js:40-65 | Through a wrapper, the headers are exactly the JSON content type, plus the bearer credential iff a user is signed in |
| Api.AnonymousUnauthorized | src/utils/api.js:16-29 | An anonymous GET carries no Authorization header, and a 401 reply `{error: "Unauthorized"}` rejects with the message "Unauthorized" |
| Api.Get | src/utils/api.js:40-42 | `get(endpoint)` is a call on that endpoint with no verb, no headers and no body |
| Api.Post | src/utils/api.js:45-50 | `post(endpoint, data)` is a POST on that endpoint carrying the data, with no headers of its own |
| Api.Put | src/utils/api.js:53-58 | `put(endpoint, data)` is a PUT on that endpoint carrying the data, with no headers of its own |
| Api.Delete | src/utils/api.js:61-65 | `del(endpoint)` is a DELETE on that endpoint with no body and no headers of its own |
| Api.OkReturnsBody | src/utils/api.js:28-32 | An OK reply resolves with the parsed body, whatever its shape |
| Domain.BookingToJson | src/pages/VehicleDetails.jsx:49-56 | The posted booking object has exactly the six keys vehicleId, vehicleName, pricePerDay, userEmail, userName and bookingDate |
| Domain.BookingRoundTrip | src/pages/VehicleDetails.jsx:49-59 | Reading the posted object back yields the same booking, field for field |
| Listing.EmptyFilters | src/pages/AllVehicles.jsx:11-16 | The initial and reset filters: all four fields empty |
| Listing.SetFilter | src/pages/AllVehicles.jsx:61-66 | `handleFilterChange(k, v)` sets field `k` to `v` and leaves the other three fields as they were |
| Listing.SetFilterLaws | src/pages/AllVehicles.jsx:61-66 | Writing back a field's current value changes nothing; of two writes to one field, the last wins |
| Listing.Derive | src/pages/AllVehicles.jsx:31-59 | The visible list is a permutation of the vehicles that match every set filter. Every visible vehicle matches, and the result is a sub-multiset of the input, no longer than it. Without a recognised sort key, the result is exactly the matching vehicles in list order |
| Listing.DeriveSorted | src/pages/AllVehicles.jsx:50-56 | `price-low` gives non-decreasing prices, `price-high` non-increasing prices, and `newest` non-increasing creation times |
| Listing.DeriveStable | src/pages/AllVehicles.jsx:50-56 | Sorting is stable: vehicles with equal sort keys keep the order the filter stages left them in |
| Listing.StagedIsFilter | src/pages/AllVehicles.jsx:32-48 | The three conditional filter passes, one after another, keep exactly the vehicles that satisfy the conjoined reference predicate, in list order |
| Listing.DeriveEmptyFilters | src/pages/AllVehicles.jsx:31-59 | With every filter field empty, the visible list is the full list in its original order |
| Listing.DeriveUnsortedSubsequence | src/pages/AllVehicles.jsx:32-48 | Without a recognised sort key, the visible list is an order-preserving subsequence of the full list |
| Listing.DeriveMembers | src/pages/AllVehicles.jsx:32-48 | A vehicle is visible iff it is in the full list and matches every set filter (both directions) |
| Listing.SearchOnly | src/pages/AllVehicles.jsx:34-38 | A non-empty search alone keeps exactly the vehicles whose lower-cased name contains the lower-cased search text, in list order |
| Listing.ClearingWidens | src/pages/AllVehicles.jsx:40-48 | Clearing any one of the filter fields can only add vehicles to the visible multiset |
| Listing.Conjunctive | src/pages/AllVehicles.jsx:40-48 | The result under category and location together lies within the result under each of them alone |
| Listing.PriceLowScenario | src/pages/AllVehicles.jsx:50-51 | A Civic at 40.00 and a CR-V at 60.00, sorted `price-low`, come out Civic first |
| Listing.DeriveReversed | src/pages/AllVehicles.jsx:50-53 | When no two different matching vehicles share a price, the `price-high` list is exactly the `price-low` list reversed |
| Listing.OnLoaded | src/pages/AllVehicles.jsx:20-24 | On load, the full list and the visible list both become the fetched data, the spinner goes, and the filters are kept |
| Listing.OnLoadFailed | src/pages/AllVehicles.jsx:25-28 | A failed load only clears the spinner; the lists and the filters are kept |
| Listing.ChangeFilter | src/pages/AllVehicles.jsx:61-66 | A filter control sets its own field to the new value; the other fields, both lists and the spinner are untouched until the effect runs |
| Listing.ResetFilters | src/pages/AllVehicles.jsx:68-75 | Reset empties all four filter fields and touches nothing else |
| Listing.Refresh | src/pages/AllVehicles.jsx:31-59 | The effect never changes the full list or the filters, and the visible list becomes exactly the derived list of the current vehicles and filters (a sub-multiset of the full list) |
| Listing.LoadThenRefresh | src/pages/AllVehicles.jsx:18-29 | After the first load, the filter effect leaves the visible list equal to the fetched data |
| Listing.ResetShowsAll | src/pages/AllVehicles.jsx:68-75 | From any state, reset shows the full list in order, and resetting twice is the same as resetting once |
| Listing.ChangeFilterKeepsOthers | src/pages/AllVehicles.jsx:61-66 | Changing one filter and re-deriving leaves the full list and the other three filters untouched |
| VehicleDetails.EffectCalls | src/pages/VehicleDetails.jsx:17-38 | The effect always reads `/vehicles/<id>`. It reads `/my-bookings/<email>` as a second call iff the user has an email |
| VehicleDetails.OnVehicleLoaded | src/pages/VehicleDetails.jsx:19-22 | The loaded vehicle is stored, the spinner goes, and `booked` is kept |
| VehicleDetails.OnVehicleFailed | src/pages/VehicleDetails.jsx:23-27 | A failed vehicle read clears the spinner, keeps whatever vehicle the state already held (none after a fresh mount), and raises "Failed to load vehicle details" |
| VehicleDetails.OnBookingsLoaded | src/pages/VehicleDetails.jsx:29-36 | `booked` is true iff some fetched booking's vehicleId equals the route id |
| VehicleDetails.NoEmailNeverBooked | src/pages/VehicleDetails.jsx:15-38 | Without a user email only the vehicle is read, so `booked` keeps its initial false |
| VehicleDetails.BookingFor | src/pages/VehicleDetails.jsx:49-56 | The booking copies the vehicle's id, name and price and the user's email. The user name is the display name, or the email when the display name is empty. The date is the current time |
| VehicleDetails.BookNow | src/pages/VehicleDetails.jsx:41-59 | No vehicle, or already booked: nothing happens, whatever the session. Otherwise, with no session, the login notice is raised. The booking is posted to `/bookings` iff there is a vehicle, it is not booked, and a user is signed in |
| VehicleDetails.SubmittedBookingDecodes | src/pages/VehicleDetails.jsx:49-59 | The posted body reads back as exactly the booking built from the vehicle and the user |
| VehicleDetails.AfterBooking | src/pages/VehicleDetails.jsx:58-65 | Success sets `booked` and confirms. Failure leaves the state unchanged and shows the error's message, or "Failed to book vehicle" when that message is empty |
| VehicleDetails.SecondAttemptIgnored | src/pages/VehicleDetails.jsx:42-61 | After a confirmed booking, a second click is ignored without a request |
| VehicleDetails.FailureIsRetryable | src/pages/VehicleDetails.jsx:58-65 | After a failed post, the same click does the same thing again |
| VehicleDetails.ButtonLabel | src/pages/VehicleDetails.jsx:176-180 | "Already Booked" iff booked; "Book Now" iff the button is enabled; "Not Available" iff not booked and not available |
| VehicleDetails.BookedVehicleDisabled | src/pages/VehicleDetails.jsx:169-180 | A vehicle marked Booked always has a disabled button |
| VehicleDetails.BookNowIgnoresAvailability | src/pages/VehicleDetails.jsx:41-47 | Invoked directly on a loaded vehicle marked Booked, with a user and no booking, `handleBookNow` posts, although the button is disabled |
| VehicleDetails.EnabledWithoutSession | src/pages/VehicleDetails.jsx:169 | An available vehicle's button is enabled for an anonymous viewer, whose click is then rejected with the login notice |
| Register.ValidatePassword | src/pages/Register.jsx:18-30 | No messages iff the password has at least 6 UTF-16 code units (a character outside the Basic Multilingual Plane counts twice, as `length` does), an A–Z and an a–z. Each message is present iff its rule is broken, and the messages come in the fixed order length, upper, lower, at most once each |
| Register.StrongPasswordAccepted | src/pages/Register.jsx:18-30 | "Secret1" meets the policy |
| Register.AstralPasswordAccepted | src/pages/Register.jsx:20 | "Ab" followed by two emoji is four characters but six code units, so it meets the policy |
| Register.ShortLowerPassword | src/pages/Register.jsx:20-28 | "abc" yields the length message, then the upper-case message |
| Register.HandleChange | src/pages/Register.jsx:32-44 | Only the named field changes. That field's error is blanked if it was set, every other error is kept, and an absent or blank error leaves the errors as they were |
| Register.Submit | src/pages/Register.jsx:46-65 | With policy errors, the errors become only the password entry (the messages joined by ". ") and the first message is toasted. `register` is called iff the policy holds, and it is the first effect. `updateUserProfile` is called iff `register` also succeeded. Navigation to `/` happens iff both succeeded |
| Register.WeakPasswordBlocked | src/pages/Register.jsx:49-55 | A rejected password never reaches `register`, `updateUserProfile` or navigation |
| Register.ShortLowerSubmit | src/pages/Register.jsx:50-55 | Submitting "abc" stores "length. upper" as the password error and toasts the length message |
| Register.HappyPathOrder | src/pages/Register.jsx:57-61 | With a valid password and both calls succeeding, the effects are: register, profile update, success toast, navigation |
| Carousel.Next | src/pages/Home.jsx:41-42 | Next stays in `[0, n)` and is `i + 1`, wrapping from `n - 1` to 0 |
| Carousel.Previous | src/pages/Home.jsx:37-40 | Previous stays in `[0, n)` and is `i - 1`, wrapping from 0 to `n - 1` |
| Carousel.NextThenPrevious | src/pages/Home.jsx:37-42 | Previous undoes next, and next undoes previous |
| Carousel.AdvanceIsAddition | src/pages/Home.jsx:28-34 | `k` timer ticks move the index to `(i + k) mod n` |
| Carousel.FullCycle | src/pages/Home.jsx:28-34 | `n` ticks bring the index back to where it started |
| Carousel.DotTargets | src/pages/Home.jsx:163-166 | The dots offer exactly the indices `0 .. n-1`, in order |
| Carousel.DotsAreIndices | src/pages/Home.jsx:163-166 | A number is a dot's target iff it is an index of the slide list |
| Carousel.Offered | src/pages/Home.jsx:28-175 | An empty list offers no action. A single slide offers only the timer tick (no arrows, no dots). With more slides the tick and both arrows are offered, and a jump iff its target is a slide index |
| Carousel.SingleSlideStays | src/pages/Home.jsx:28-42 | With one slide, every run of offered actions leaves the index at 0 |
| Carousel.Step | src/pages/Home.jsx:28-42 | Any action the page offers keeps the index in `[0, n)` |
| Carousel.RunInRange | src/pages/Home.jsx:28-42 | From index 0, every sequence of offered actions keeps the index inside the slide list |
| Carousel.CurrentSlide | src/pages/Home.jsx:46 | The current slide exists iff the index is inside the list, and is then the slide at that index |
| Carousel.HeroImage | src/pages/Home.jsx:64-67 | The hero image is the current slide's cover image when it has a non-empty one, else the fixed Unsplash URL |
| Carousel.HeroAlt | src/pages/Home.jsx:68 | The alt text is the current slide's name when it is non-empty, else "Hero" |
| Carousel.HeroFollowsRun | src/pages/Home.jsx:46-68 | Along any offered run, the hero shows the current slide's own image whenever it has one |
| MyVehicles.LoadCall | src/pages/MyVehicles.jsx:16-28 | `/my-vehicles/<email>` is read iff the user has an email |
| MyVehicles.OnLoaded | src/pages/MyVehicles.jsx:19-22 | The list becomes the fetched data and the spinner goes; the modal is kept |
| MyVehicles.OnLoadFailed | src/pages/MyVehicles.jsx:23-26 | A failed read only clears the spinner |
| MyVehicles.NoEmailKeepsLoading | src/pages/MyVehicles.jsx:13-28 | Without an email nothing is fetched and the spinner stays |
| MyVehicles.OpenDelete | src/pages/MyVehicles.jsx:30-32 | `handleDelete(id)` opens the modal on that id and touches nothing else |
| MyVehicles.CancelDelete | src/pages/MyVehicles.jsx:202 | Cancel closes the modal, clears the id, and leaves the list alone |
| MyVehicles.IdText | src/pages/MyVehicles.jsx:35 | The id as interpolated into the URL: the id itself, or "null" when the modal holds none |
| MyVehicles.ConfirmDelete | src/pages/MyVehicles.jsx:34-35 | The request is DELETE `/vehicles/<modal id>` (`/vehicles/null` without an id) with no body. The callbacks capture the modal's id and the list as they are at the click |
| MyVehicles.OnDeleteSettled | src/pages/MyVehicles.jsx:34-46 | Either outcome closes the modal. On success the list becomes the captured list without the captured id, whatever the page did meanwhile: no remaining vehicle has that id, every other captured vehicle is kept, in its relative order. On failure the current list is unchanged |
| MyVehicles.RemovedExactly | src/pages/MyVehicles.jsx:37 | The filter drops exactly as many vehicles as carry the id |
| MyVehicles.OpenThenConfirm | src/pages/MyVehicles.jsx:30-46 | Open on an id, then confirm successfully: the DELETE targets that id, exactly the vehicles carrying it leave the list, and the modal closes |
| MyVehicles.CancelWhilePending | src/pages/MyVehicles.jsx:34-46 | Cancel pressed while the DELETE is in flight clears the modal, yet a successful reply still removes exactly the vehicles with the confirmed id |
| MyVehicles.OpenThenCancel | src/pages/MyVehicles.jsx:30-32 | Open, then cancel, restores the closed modal with the list untouched |
| VehicleForms.InitialAddDraft | src/pages/AddVehicle.jsx:11-20 | Category "Sedan", availability "Available", and the owner is the display name (empty without a user). Every other field is empty, so both selects hold valid options |
| VehicleForms.DefaultUpdateDraft | src/pages/UpdateVehicle.jsx:12-21 | The update form's first draft is the add form's first draft for an anonymous user |
| VehicleForms.SetField | src/pages/AddVehicle.jsx:22-27 | `handleChange` sets the named field to the value and leaves the other seven as they were |
| VehicleForms.EditKeepsSelectsValid | src/pages/AddVehicle.jsx:105-157 | Choosing listed options keeps category among the five categories and availability among Available/Booked; edits to other fields do not affect them |
| VehicleForms.PriceJson | src/pages/AddVehicle.jsx:34 | The posted price is the parsed number in hundredths, or `null` when the text does not parse |
| VehicleForms.UpdatePayload | src/pages/UpdateVehicle.jsx:55-58 | The PUT body has exactly the eight draft keys, each with its field's text and the price parsed. No userEmail or createdAt is added |
| VehicleForms.AddPayload | src/pages/AddVehicle.jsx:32-37 | The POST body is the update body for the same draft, with exactly userEmail (the session email) and createdAt (the current time) added |
| VehicleForms.AddCall | src/pages/AddVehicle.jsx:40 | A signed-in user's request is a POST of the add payload to the base URL plus `/vehicles`. Its headers are exactly the JSON content type and the bearer credential |
| VehicleForms.UpdateCall | src/pages/UpdateVehicle.jsx:61 | A signed-in user's request is a PUT of the update payload to the base URL plus `/vehicles/<route id>`, with the same two headers |
| VehicleForms.AfterWrite | src/pages/AddVehicle.jsx:39-46 | Navigation to `/my-vehicles` happens iff the write succeeded. The notice is the add or update success, or failure, message |
| VehicleForms.LoadedDraft | src/pages/UpdateVehicle.jsx:26-35 | The draft's seven text fields equal the loaded vehicle's, and its price text parses back to the vehicle's price |
| VehicleForms.OnLoaded | src/pages/UpdateVehicle.jsx:25-37 | A successful load installs the loaded draft and clears the spinner |
| VehicleForms.OnLoadFailed | src/pages/UpdateVehicle.jsx:38-42 | A failed load keeps the current draft, clears the spinner, and raises "Failed to load vehicle details" |
| VehicleForms.UneditedUpdateRoundTrip | src/pages/UpdateVehicle.jsx:24-61 | Loading a vehicle and submitting it unedited PUTs to `/vehicles/<route id>` the vehicle's own price and field values |
| VehicleForms.EmptyPriceIsNull | src/pages/AddVehicle.jsx:34 | An empty price input is posted as `null` (NaN) |
| VehicleForms.EditChangesOneEntry | src/pages/UpdateVehicle.jsx:45-58 | Editing one field leaves every other non-price entry of the PUT body unchanged |
| Numbers.ToText | src/pages/UpdateVehicle.jsx:30 | The decimal text of a price is non-empty, starts with a minus sign iff the price is negative, and with a digit otherwise |
| Numbers.ParseNumberDefined | src/pages/AddVehicle.jsx:34 | `parseFloat` gives a number exactly when, after leading white space and an optional sign, the text starts with a digit or with a point and a digit; a negative number needs a minus sign |
| Numbers.ParseOfToText | src/pages/UpdateVehicle.jsx:26-57 | `parseFloat` of the decimal text of any price gives back that price, fraction included |
| Numbers.ParseFractionExample | src/pages/AddVehicle.jsx:34 | "49.99" parses to 49.99 |
| Numbers.ParseExponentExample | src/pages/AddVehicle.jsx:34 | "1e3" parses to 1000 |
| Numbers.ParseLettersIsNaN | src/pages/AddVehicle.jsx:34 | "abc" parses to NaN |
| Numbers.ParseEmptyIsNaN | src/pages/AddVehicle.jsx:34 | The empty text parses to NaN |

## Left out

- `src/components/Navbar.jsx`, `src/App.jsx`, `src/pages/Login.jsx`, `src/pages/MyBookings.jsx` and the presentation-only components: they hold routing, link visibility and fetch-then-render, and no state logic of their own.
- JSX markup, styling and animation: presentation only.
- `Register.jsx` `handleGoogleLogin` (lines 67-75): a single call into the identity provider followed by a toast and navigation.
- The identity provider (`auth.currentUser`, `getIdToken`), `fetch`, axios and JSON text parsing are not modelled. The token is an `Identity` input and the reply a `Reply` value. The initial load of `AllVehicles.jsx` uses axios directly and appears only as load events. The initial load of `Home.jsx` is not modelled at all: the carousel takes the loaded slide list as a parameter.
- `setInterval` timing: only the step function and sequences of steps are modelled.
- The two independent reads of the details page may interleave. Each completion is a separate event, applied in any order.
- Console logging is not modelled; toasts are `Notice` values.
- Numbers.ParseNumber: digits below a hundredth are truncated toward zero. The price inputs have `step="0.01"` (`AddVehicle.jsx` line 122, `UpdateVehicle.jsx` line 146), so the browser's constraint validation blocks a submission with more decimals. Binary floating-point rounding and values beyond the double range are not modelled. A spelled-out `Infinity` reads as `None`, which `JSON.stringify` writes as `null`, as it writes a NaN.
- VehicleForms.PriceJson: the posted price is exact in hundredths, for the same reason.
- Numbers.ToText: writes a price as digits with at most two decimals. `String` switches to exponent notation only for magnitudes of 10^21 and above, which are not modelled.
- Domain.Vehicle: `pricePerDay` is a count of hundredths, and `createdAt` is the parsed creation time in milliseconds. `Date` parsing and date formatting are not modelled.
- Text.ToLower: lower-cases ASCII letters only. Full Unicode case mapping is not modelled.
- Api.MergeHeaders: header names are compared exactly. `fetch`'s case-insensitive merging of names is not modelled.
- Api.Message: the text of the parse error for a non-JSON body comes from the JavaScript engine. It is modelled as one fixed string.
- Json.ToJsString: objects convert to "[object Object]" and numbers are held in hundredths, so only the conversions the client can meet are modelled.
- VehicleDetails.OnBookingsLoaded: the effect re-runs on a change of route id or user. That re-run is modelled as new events, and `booked` is not reset in between, as in the source.
- VehicleDetails: the `Vehicle not found` view and the spinner are rendering of the modelled `vehicle` and `loading` fields.
- Carousel.Run: the slide list is fixed once loaded, so a change of its length while an index is held is not modelled.
