# Excel-Tech flight booking client, modelled in Dafny

The client is a React front end for a flight-booking service. Every piece of
data comes from a REST server. Inside the components there is a small amount of
plain logic, and this project models it, taking the fetched arrays as inputs:

- the upcoming-flight, search and pagination logic of the flights page, the
  home-page search box and the home-page "Available Flights" list;
- the three copies of `convertTo12HourFormat`;
- the booking form on the flight page;
- the form validators of the add-flight, booking-administration and profile
  pages, with the profile picture checks;
- the booking selectors of the notification, history, refund and refund
  administration pages, tied together as one refund life-cycle (booked, refund
  requested, refund approved);
- the administrator's list operations (delete by id, search by flight number,
  edit and save) and the dashboard statistics (valid-booking count, earnings,
  the five latest flights and bookings, sorted in place). The booking page's
  edit modal is never rendered, so its input and save handlers are modelled
  from their text but cannot be reached in the program.

Layout: one module per component and a few shared modules.

| module | models |
|---|---|
| `Optional` | option type |
| `Seqs` | `filter`, `slice`, `reduce` |
| `Text` | ASCII lower-casing, `includes`, `startsWith`, `padStart`, decimal digits |
| `Calendar` | calendar days and their `YYYY-MM-DD` form (section 5.6 of RFC 3339), instants, times of day |
| `JsValues` | JavaScript object records, truthiness and number coercion |
| `Records` | the server's flight, booking and account documents |
| `Clock` | the 12-hour clock |
| `Forms` | required-field validation |
| `Bookings` | the booking life-cycle |

Pages with state that their handlers overwrite are classes:

- `AllFlight.FlightBrowser`
- `FlightManagement.FlightManager`
- `BookingFlight.BookingEditor`
- `AddFlight.FlightForm`
- `Profile.ProfileEditor`

The dashboard's in-place `sort` is an in-place array method.

`window.confirm` answers, the time "now", the uploaded picture URL and whether
the server reported success are parameters.

## Model

| member | source | states |
|---|---|---|
| AllFlight.UpcomingFlights | src/Component/Pages/AllFlight/AllFlight.jsx:19-24 | exactly the fetched flights dated today or later are kept |
| AllFlight.UpcomingFlightsExact | src/Component/Pages/AllFlight/AllFlight.jsx:20-24 | the upcoming list keeps the fetched order, and each kept flight as often as it was fetched |
| AllFlight.SearchFlights | src/Component/Pages/AllFlight/AllFlight.jsx:33-45 | a flight is in the results iff it is loaded and matches origin, destination and (when set) the `YYYY-MM-DD` date |
| AllFlight.SearchKeepsOrder | src/Component/Pages/AllFlight/AllFlight.jsx:33 | the results are an order-preserving subsequence of the loaded flights |
| AllFlight.EmptySearchKeepsAll | src/Component/Pages/AllFlight/AllFlight.jsx:33-45 | with all three fields empty the search returns the loaded list unchanged |
| AllFlight.SameResultsAsHomeSearch | src/Component/Pages/AllFlight/AllFlight.jsx:33-45 | for valid dates, the flights page's search equals the home-page search (case-insensitive substring, same calendar day) |
| AllFlight.TotalPages | src/Component/Pages/AllFlight/AllFlight.jsx:60 | the page count is the ceiling of results / 8 |
| AllFlight.PageOf | src/Component/Pages/AllFlight/AllFlight.jsx:51-54 | page p is the block [(p-1)*8, p*8) of the results, at most 8 flights, empty past the end |
| AllFlight.PageNumbers | src/Component/Pages/AllFlight/AllFlight.jsx:156-162 | there are totalPages buttons, and button i is numbered i+1 |
| AllFlight.PageNumbersAreThePages | src/Component/Pages/AllFlight/AllFlight.jsx:156-162 | k is a button iff 1 <= k <= totalPages |
| AllFlight.JoinPagesIsPrefix | src/Component/Pages/AllFlight/AllFlight.jsx:52-54 | pages 1..k laid end to end are the first min(8k, n) results |
| AllFlight.PagesCoverResults | src/Component/Pages/AllFlight/AllFlight.jsx:52-60 | all pages read in order are exactly the results: nothing lost, repeated or moved |
| AllFlight.PageOccupancy | src/Component/Pages/AllFlight/AllFlight.jsx:52-60 | a page holds flights iff its number is at most totalPages |
| AllFlight.LastPageSize | src/Component/Pages/AllFlight/AllFlight.jsx:52-60 | the last page holds n mod 8 flights, or 8 |
| AllFlight.NextEnabledWithoutResults | src/Component/Pages/AllFlight/AllFlight.jsx:170-172 | as written, with no results Next stays enabled on page 1 and leads past the last page |
| AllFlight.NextCorrectionOnlyForNoResults | src/Component/Pages/AllFlight/AllFlight.jsx:170-172 | the corrected test agrees with the written one whenever there is a page |
| AllFlight.PrevNextStayInRange | src/Component/Pages/AllFlight/AllFlight.jsx:147-149 | Prev (disabled on page 1) and the corrected Next never leave 1..max(1, totalPages) |
| AllFlight.FlightBrowser.constructor | src/Component/Pages/AllFlight/AllFlight.jsx:6-12 | empty lists and fields, page 1 |
| AllFlight.FlightBrowser.Load | src/Component/Pages/AllFlight/AllFlight.jsx:15-26 | the upcoming flights become both the loaded list and the results |
| AllFlight.FlightBrowser.SetOrigin | src/Component/Pages/AllFlight/AllFlight.jsx:73 | the origin field takes the typed text; the page does not change |
| AllFlight.FlightBrowser.SetDestination | src/Component/Pages/AllFlight/AllFlight.jsx:82 | the destination field takes the typed text |
| AllFlight.FlightBrowser.SetDate | src/Component/Pages/AllFlight/AllFlight.jsx:90 | the date field takes the picked date |
| AllFlight.FlightBrowser.HandleSearch | src/Component/Pages/AllFlight/AllFlight.jsx:32-49 | the results become the search of the loaded flights and the page resets to 1 |
| AllFlight.FlightBrowser.ClickPageNumber | src/Component/Pages/AllFlight/AllFlight.jsx:159 | a numbered button shows that page, which is a real page |
| AllFlight.FlightBrowser.ClickPrev | src/Component/Pages/AllFlight/AllFlight.jsx:146-149 | one page back unless on page 1 |
| AllFlight.FlightBrowser.ClickNext | src/Component/Pages/AllFlight/AllFlight.jsx:169-172 | one page on unless on or past the last page (corrected test) |
| AllFlight.FlightBrowser.CurrentFlights | src/Component/Pages/AllFlight/AllFlight.jsx:52-54 | at most 8 flights, the current page's slice, never empty when there are results |
| FlightSearch.SearchResults | src/Component/Home/FlightSearch.jsx:21-27 | a flight is kept iff all three criteria hold |
| FlightSearch.SearchKeepsOrder | src/Component/Home/FlightSearch.jsx:21-27 | the results keep the fetched order |
| FlightSearch.AirportMatchIsSubstring | src/Component/Home/FlightSearch.jsx:23-24 | an airport matches iff the lower-cased criterion occurs in the lower-cased airport; empty matches all |
| FlightSearch.AirportMatchIgnoresCase | src/Component/Home/FlightSearch.jsx:23-24 | matching is unchanged by lower-casing either side |
| FlightSearch.DateMatchIsSameDay | src/Component/Home/FlightSearch.jsx:25 | a non-empty date criterion keeps exactly the flights on the day it names |
| FlightSearch.EmptyCriteriaKeepAll | src/Component/Home/FlightSearch.jsx:23-25 | all three criteria empty keeps every flight |
| FlightSearch.StartSearch | src/Component/Home/FlightSearch.jsx:13-14 | a search starts loading and clears the previous error |
| FlightSearch.FinishSearch | src/Component/Home/FlightSearch.jsx:16-35 | a search always ends with loading off, with the filtered results or the fetch error text |
| FlightShow.UpcomingFlights | src/Component/Home/FlightShow.jsx:16-22 | exactly the flights whose date is at or after now |
| FlightShow.ShownFlights | src/Component/Home/FlightShow.jsx:24 | at most 5, a prefix of the upcoming list, all of them when there are at most 5 |
| FlightShow.ShownKeepsOrder | src/Component/Home/FlightShow.jsx:19-24 | the upcoming list keeps the fetched order |
| FlightShow.EmptyMessageIffNoneUpcoming | src/Component/Home/FlightShow.jsx:42-45 | the empty message shows iff no fetched flight is upcoming |
| FlightShow.ShownAreUpcomingOnFlightsPage | src/Component/Home/FlightShow.jsx:16-22 | every flight shown on the home page is also on the flights page |
| FlightShow.SameAsFlightsPageAtMidnight | src/Component/Home/FlightShow.jsx:16-22 | at the start of a day the two upcoming filters coincide |
| FlightDetail.DetailTo12Hour | src/Component/Pages/FlightDetail/FlightDetail.jsx:7-15 | the text ends in PM iff the hour is at least 12, else AM |
| FlightDetail.PaddedMinuteAgrees | src/Component/Pages/FlightDetail/FlightDetail.jsx:13-14 | with two-digit minutes the flight page's copy prints what the admin copies print |
| FlightDetail.UnpaddedMinuteAgrees | src/Component/Pages/FlightDetail/FlightDetail.jsx:13-14 | `padStart` makes a one-digit minute print as the admin copies print it |
| FlightDetail.StoredTimeDisplay | src/Component/Pages/FlightDetail/FlightDetail.jsx:7-15 | a stored `HH:mm` time splits at the colon, displays as `h:mm AM/PM`, and that text reads back to the time |
| FlightDetail.BookingData | src/Component/Pages/FlightDetail/FlightDetail.jsx:73-90 | the booking copies the flight's number, airports, date and time, the seats, the transaction and contact, cost = seats * price (the total the modal shows), the signed-in e-mail and image |
| Clock.Hour12 | src/Component/UserDashboard/UserDashboardComponent/Flight_Management/Flight_Management.jsx:11 | the hour lies in 1..12 and agrees with the 24-hour hour modulo 12 |
| Clock.TwelveHourRoundTrip | src/Component/UserDashboard/UserDashboardComponent/Flight_Management/Flight_Management.jsx:10-11 | hour and period determine the 24-hour hour |
| Clock.TwentyFourHourRoundTrip | src/Component/UserDashboard/UserDashboardComponent/Flight_Management/Flight_Management.jsx:10-11 | every 12-hour reading comes from exactly one 24-hour hour |
| Clock.TwelveHourPieces | src/Component/UserDashboard/UserDashboardComponent/Flight_Management/Flight_Management.jsx:14 | helper for reading back: in `h:mm AM/PM` the minutes, the space and the period sit at fixed offsets from the end |
| Clock.ParseTwelveHour | src/Component/UserDashboard/UserDashboardComponent/Flight_Management/Flight_Management.jsx:14 | any `h:mm AM/PM` text with a 1..12 hour reads back as its hour and minute |
| Clock.To12HourTextRoundTrip | src/Component/UserDashboard/UserDashboardComponent/Flight_Management/Flight_Management.jsx:5-15 | the display `h:mm AM/PM` loses nothing: it reads back to the time |
| Clock.MidnightAndAfternoon | src/Component/UserDashboard/UserDashboardComponent/Booking_Flight/Booking_Flight.jsx:10-14 | hour 0 is 12 AM, hour 12 is 12 PM, hours 13..23 are h-12 PM, minutes padded |
| Calendar.FormatFullDate | src/Component/Pages/AllFlight/AllFlight.jsx:41 | `YYYY-MM-DD`: ten characters, dashes at 4 and 7, digits elsewhere |
| Calendar.ParseFormatRoundTrip | src/Component/Pages/AllFlight/AllFlight.jsx:41 | a valid day formats and parses back to itself |
| Calendar.FormatParseRoundTrip | src/Component/UserDashboard/UserDashboardComponent/Booking_Flight/Booking_Flight.jsx:95 | a parseable date text is already in its `YYYY-MM-DD` form |
| Calendar.FormatInjective | src/Component/Pages/AllFlight/AllFlight.jsx:41 | two valid days with the same text are the same day |
| Calendar.OrdinalIsCalendarOrder | src/Component/Pages/AllFlight/AllFlight.jsx:21-23 | the day number orders days as the calendar does |
| Forms.CheckRequired | src/Component/UserDashboard/UserDashboardComponent/Add_Flight/Add_Flight.jsx:57 | one `if (!v) errors.k = msg` step: no change when the field is truthy, else that one message added |
| Forms.RequireFromKeys | src/Component/UserDashboard/UserDashboardComponent/Add_Flight/Add_Flight.jsx:56-65 | a key has an error iff it was there or a later rule for it sees an empty field |
| Forms.RequireFromKeeps | src/Component/UserDashboard/UserDashboardComponent/Add_Flight/Add_Flight.jsx:56-65 | errors under other keys are untouched |
| Forms.RequireFromMessage | src/Component/UserDashboard/UserDashboardComponent/Add_Flight/Add_Flight.jsx:56-65 | an empty field gets its own rule's message |
| Forms.MissingFieldsExact | src/Component/UserDashboard/UserDashboardComponent/Add_Flight/Add_Flight.jsx:56-65 | the error keys are exactly the rule keys whose field is empty, each with its message |
| Forms.NoMissingFieldsIff | src/Component/UserDashboard/UserDashboardComponent/Add_Flight/Add_Flight.jsx:69 | no errors iff every rule's field is truthy |
| AddFlight.FlightRulesDistinct | src/Component/UserDashboard/UserDashboardComponent/Add_Flight/Add_Flight.jsx:57-65 | the nine checks are on nine different fields |
| AddFlight.EmptyFlightForm | src/Component/UserDashboard/UserDashboardComponent/Add_Flight/Add_Flight.jsx:8-18 | the form holds exactly the nine checked fields, all empty |
| AddFlight.ValidateFlightForm | src/Component/UserDashboard/UserDashboardComponent/Add_Flight/Add_Flight.jsx:55-70 | the nine checks in order give exactly the missing-field errors |
| AddFlight.FlightFormErrorsExact | src/Component/UserDashboard/UserDashboardComponent/Add_Flight/Add_Flight.jsx:57-69 | valid iff all nine fields are filled; each empty field has exactly its own error, no other key appears |
| AddFlight.EmptyFormFailsEverywhere | src/Component/UserDashboard/UserDashboardComponent/Add_Flight/Add_Flight.jsx:99-109 | the reset form fails every check |
| AddFlight.ImageOrEmpty | src/Component/UserDashboard/UserDashboardComponent/Add_Flight/Add_Flight.jsx:84 | `userData?.image` or "" when missing or empty |
| AddFlight.FlightData | src/Component/UserDashboard/UserDashboardComponent/Add_Flight/Add_Flight.jsx:81-85 | the posted record is the form plus `userEmail` and `userImage`, every form field unchanged |
| AddFlight.FlightForm.constructor | src/Component/UserDashboard/UserDashboardComponent/Add_Flight/Add_Flight.jsx:8-23 | empty form, no errors |
| AddFlight.FlightForm.HandleChange | src/Component/UserDashboard/UserDashboardComponent/Add_Flight/Add_Flight.jsx:46-51 | only the named field changes |
| AddFlight.FlightForm.HandleSubmit | src/Component/UserDashboard/UserDashboardComponent/Add_Flight/Add_Flight.jsx:73-110 | a record is posted iff there are no errors; a posted form is reset whatever the server says; an invalid form is kept |
| FlightManagement.DeleteFlight | src/Component/UserDashboard/UserDashboardComponent/Flight_Management/Flight_Management.jsx:63 | exactly the flights with another id remain |
| FlightManagement.DeleteFlightExact | src/Component/UserDashboard/UserDashboardComponent/Flight_Management/Flight_Management.jsx:63 | the others remain in order and as often as before |
| FlightManagement.DeleteUnknownId | src/Component/UserDashboard/UserDashboardComponent/Flight_Management/Flight_Management.jsx:63 | an id no flight carries deletes nothing |
| FlightManagement.SearchByNumber | src/Component/UserDashboard/UserDashboardComponent/Flight_Management/Flight_Management.jsx:110-112 | a flight is shown iff its lower-cased number contains the lower-cased term |
| FlightManagement.SearchByNumberFacts | src/Component/UserDashboard/UserDashboardComponent/Flight_Management/Flight_Management.jsx:110-112 | the search ignores the term's case, keeps order, and an empty term shows all |
| FlightManagement.EmptyEditForm | src/Component/UserDashboard/UserDashboardComponent/Flight_Management/Flight_Management.jsx:23-30 | six empty fields |
| FlightManagement.EditForm | src/Component/UserDashboard/UserDashboardComponent/Flight_Management/Flight_Management.jsx:70-77 | exactly the six editable fields, as the flight stores them |
| FlightManagement.EditFormKeepsDate | src/Component/UserDashboard/UserDashboardComponent/Flight_Management/Flight_Management.jsx:74 | an untouched date field saves back the flight's own day |
| FlightManagement.FlightManager.constructor | src/Component/UserDashboard/UserDashboardComponent/Flight_Management/Flight_Management.jsx:18-31 | empty list, no selection, empty form and term, modal closed |
| FlightManagement.FlightManager.Loaded | src/Component/UserDashboard/UserDashboardComponent/Flight_Management/Flight_Management.jsx:43-45 | the fetched list replaces the flights |
| FlightManagement.FlightManager.SetSearchTerm | src/Component/UserDashboard/UserDashboardComponent/Flight_Management/Flight_Management.jsx:31 | the term is the typed text |
| FlightManagement.FlightManager.Shown | src/Component/UserDashboard/UserDashboardComponent/Flight_Management/Flight_Management.jsx:110-112 | the rows are the flights matching the term |
| FlightManagement.FlightManager.HandleDelete | src/Component/UserDashboard/UserDashboardComponent/Flight_Management/Flight_Management.jsx:57-66 | declined: nothing sent, list unchanged; confirmed: `DELETE /flights/id`, and the flight leaves once it resolves |
| FlightManagement.FlightManager.HandleEdit | src/Component/UserDashboard/UserDashboardComponent/Flight_Management/Flight_Management.jsx:68-79 | the flight is selected, its six fields loaded, the modal opened |
| FlightManagement.FlightManager.HandleInputChange | src/Component/UserDashboard/UserDashboardComponent/Flight_Management/Flight_Management.jsx:81-84 | only the named field changes |
| FlightManagement.FlightManager.HandleSave | src/Component/UserDashboard/UserDashboardComponent/Flight_Management/Flight_Management.jsx:86-96 | only after confirmation, and only with a flight selected, the whole form is sent to `/flights/<id>` |
| FlightManagement.FlightManager.Saved | src/Component/UserDashboard/UserDashboardComponent/Flight_Management/Flight_Management.jsx:98-101 | the list is refetched and the modal closes |
| BookingFlight.DeleteBooking | src/Component/UserDashboard/UserDashboardComponent/Booking_Flight/Booking_Flight.jsx:71 | exactly the bookings with another id remain |
| BookingFlight.DeleteBookingExact | src/Component/UserDashboard/UserDashboardComponent/Booking_Flight/Booking_Flight.jsx:71 | the others remain in order and as often as before |
| BookingFlight.SearchBookings | src/Component/UserDashboard/UserDashboardComponent/Booking_Flight/Booking_Flight.jsx:156-158 | a booking is shown iff it has a non-empty number containing the term, ignoring case |
| BookingFlight.SearchBookingsFacts | src/Component/UserDashboard/UserDashboardComponent/Booking_Flight/Booking_Flight.jsx:156-158 | bookings without a number never show; order kept; an empty term shows every numbered booking |
| BookingFlight.CheckBookingFields | src/Component/UserDashboard/UserDashboardComponent/Booking_Flight/Booking_Flight.jsx:131-149 | the six text checks in order give the missing-field errors |
| BookingFlight.ValidateBookingForm | src/Component/UserDashboard/UserDashboardComponent/Booking_Flight/Booking_Flight.jsx:130-154 | the six checks and the cost check, in order |
| BookingFlight.BookingRulesShape | src/Component/UserDashboard/UserDashboardComponent/Booking_Flight/Booking_Flight.jsx:132-149 | six different fields, none of them `totalCost` |
| BookingFlight.BookingFormValidIff | src/Component/UserDashboard/UserDashboardComponent/Booking_Flight/Booking_Flight.jsx:130-154 | no errors iff the six fields are filled and the cost is truthy and not at most zero |
| BookingFlight.CostErrorCases | src/Component/UserDashboard/UserDashboardComponent/Booking_Flight/Booking_Flight.jsx:150-152 | a missing, empty, zero or negative cost has the cost error; a positive number never does |
| BookingFlight.NonNumericCostPasses | src/Component/UserDashboard/UserDashboardComponent/Booking_Flight/Booking_Flight.jsx:150 | the text "abc" passes the cost check (`NaN <= 0` is false) |
| BookingFlight.EditForm | src/Component/UserDashboard/UserDashboardComponent/Booking_Flight/Booking_Flight.jsx:76-86 | exactly the eight fields loaded from the booking |
| BookingFlight.UnchangedCompleteBookingValidates | src/Component/UserDashboard/UserDashboardComponent/Booking_Flight/Booking_Flight.jsx:130-154 | a complete booking with a positive cost, loaded and untouched, passes validation |
| BookingFlight.UpdatePayload | src/Component/UserDashboard/UserDashboardComponent/Booking_Flight/Booking_Flight.jsx:110 | the body is the form minus `_id`, every other field kept |
| BookingFlight.StoredDateReadsBack | src/Component/UserDashboard/UserDashboardComponent/Booking_Flight/Booking_Flight.jsx:95 | a normalised date reads back as the same day |
| BookingFlight.BookingEditor.constructor | src/Component/UserDashboard/UserDashboardComponent/Booking_Flight/Booking_Flight.jsx:33-39 | empty list, term, form and errors; modal closed |
| BookingFlight.BookingEditor.Loaded | src/Component/UserDashboard/UserDashboardComponent/Booking_Flight/Booking_Flight.jsx:51-53 | the fetched bookings replace the list |
| BookingFlight.BookingEditor.SetSearchTerm | src/Component/UserDashboard/UserDashboardComponent/Booking_Flight/Booking_Flight.jsx:36 | the term is the typed text |
| BookingFlight.BookingEditor.HandleDelete | src/Component/UserDashboard/UserDashboardComponent/Booking_Flight/Booking_Flight.jsx:65-74 | declined: nothing; confirmed: `DELETE /flight-booking/id`, and the booking leaves once it resolves |
| BookingFlight.BookingEditor.HandleEdit | src/Component/UserDashboard/UserDashboardComponent/Booking_Flight/Booking_Flight.jsx:76-88 | the eight fields loaded and the modal flag set (no modal is rendered) |
| BookingFlight.BookingEditor.HandleInputChange | src/Component/UserDashboard/UserDashboardComponent/Booking_Flight/Booking_Flight.jsx:90-100 | a date is stored as `YYYY-MM-DD`; an unparseable date throws and changes nothing; anything else verbatim in the named field only (unreachable) |
| BookingFlight.BookingEditor.HandleSave | src/Component/UserDashboard/UserDashboardComponent/Booking_Flight/Booking_Flight.jsx:102-116 | errors shown; sent iff none, as the form minus `_id` to `/flight-booking/<_id>` (unreachable) |
| BookingFlight.BookingEditor.Saved | src/Component/UserDashboard/UserDashboardComponent/Booking_Flight/Booking_Flight.jsx:118-120 | list refetched, modal closed |
| Profile.CheckImage | src/Component/Pages/Profile/Profile.jsx:69-79 | too large iff over 2 MB; not an image iff within the size but not `image/`; the size check first |
| Profile.ImageMessage | src/Component/Pages/Profile/Profile.jsx:70-76 | the error text is empty iff the file is accepted |
| Profile.ImageLimits | src/Component/Pages/Profile/Profile.jsx:69-72 | exactly 2 MB of `image/png` is accepted; one byte more is rejected for size |
| Profile.AccountRecord | src/Component/Pages/Profile/Profile.jsx:28-31 | the account document as the page holds it, with its `_id` and e-mail |
| Profile.ProfileForm | src/Component/Pages/Profile/Profile.jsx:43-48 | exactly the four fields, copied from the profile |
| Profile.FieldKey | src/Component/Pages/Profile/Profile.jsx:231-254 | the inputs that call `handleChange` edit a form field other than the picture |
| Profile.ValidateProfile | src/Component/Pages/Profile/Profile.jsx:84-89 | the two checks in order give the missing-field errors |
| Profile.ProfileErrorsExact | src/Component/Pages/Profile/Profile.jsx:84-89 | no errors iff name and phone are filled; each empty one has its message |
| Profile.ImageUrl | src/Component/Pages/Profile/Profile.jsx:101-107 | a chosen file becomes the uploaded URL; any other value is kept |
| Profile.UpdatedData | src/Component/Pages/Profile/Profile.jsx:109 | the form with the picture replaced by its URL, never a file; other fields unchanged |
| Profile.SecondSaveLosesId | src/Component/Pages/Profile/Profile.jsx:121 | as written, the profile after a save has no `_id`, so the next save goes to `/profile/undefined` |
| Profile.SavedProfile | src/Component/Pages/Profile/Profile.jsx:121 | corrected: the saved fields over the stored document |
| Profile.SavedProfileKeepsPath | src/Component/Pages/Profile/Profile.jsx:109-121 | corrected: saving keeps the document's path |
| Profile.ProfileEditor.constructor | src/Component/Pages/Profile/Profile.jsx:9-19 | no profile, four empty fields, no errors or preview |
| Profile.ProfileEditor.ProfileFetched | src/Component/Pages/Profile/Profile.jsx:26-34 | the first account with the e-mail becomes the profile; none found leaves it as it was |
| Profile.ProfileEditor.OpenModal | src/Component/Pages/Profile/Profile.jsx:41-51 | with a profile, its four fields are loaded and the modal opens; otherwise nothing |
| Profile.ProfileEditor.CloseModal | src/Component/Pages/Profile/Profile.jsx:54 | the modal closes |
| Profile.ProfileEditor.HandleChange | src/Component/Pages/Profile/Profile.jsx:57-63 | only the named field changes |
| Profile.ProfileEditor.HandleImageChange | src/Component/Pages/Profile/Profile.jsx:66-81 | no file: nothing; rejected: its error and no preview; accepted: error cleared, preview shown, file in the form |
| Profile.ProfileEditor.SaveChanges | src/Component/Pages/Profile/Profile.jsx:91-123 | errors replaced; sent iff none and a profile is loaded, to its path, picture as URL; success (corrected) merges the saved fields into the stored document and closes; the path never changes |
| Bookings.OwnBookings | src/Component/Pages/Booking_Notification/Booking_Notification.jsx:38 | exactly the bookings made under the e-mail |
| Bookings.StageOf | src/Component/UserDashboard/UserDashboardComponent/Booking_Refund/Booking_Refund.jsx:88 | booked iff no refund requested; refunded iff requested and approved |
| Bookings.Stored | src/Component/Pages/FlightDetail/FlightDetail.jsx:76-90 | a stored booking holds the posted fields and starts booked |
| Bookings.RequestRefund | src/Component/Pages/Booking_Notification/Booking_Notification.jsx:59-65 | the booking is marked refund requested; owner, id and approval unchanged |
| Bookings.ApproveRefund | src/Component/UserDashboard/UserDashboardComponent/Booking_Refund/Booking_Refund.jsx:37-40 | the booking is marked approved; owner, id and status unchanged |
| Bookings.LifeCycleTransitions | src/Component/UserDashboard/UserDashboardComponent/Booking_Refund/Booking_Refund.jsx:35-53 | booked to pending to refunded; other steps leave the stage; both updates idempotent |
| Bookings.UpdateById | src/Component/UserDashboard/UserDashboardComponent/Booking_Refund/Booking_Refund.jsx:37-45 | the server update changes exactly the booking with that id |
| Bookings.UpdateByIdMembers | src/Component/UserDashboard/UserDashboardComponent/Booking_Refund/Booking_Refund.jsx:37-45 | after the update the list holds the other bookings and the updated one |
| BookingNotification.LiveBookings | src/Component/Pages/Booking_Notification/Booking_Notification.jsx:37-39 | exactly the user's bookings with no refund requested |
| BookingNotification.LiveBookingsKeepOrder | src/Component/Pages/Booking_Notification/Booking_Notification.jsx:37-40 | in fetch order |
| BookingNotification.LiveBookingsExact | src/Component/Pages/Booking_Notification/Booking_Notification.jsx:37-40 | each selected booking as often as fetched, so the total counts them exactly |
| BookingNotification.RefundRequestFor | src/Component/Pages/Booking_Notification/Booking_Notification.jsx:55-65 | a body-less `PUT /flight-bookings/id` iff confirmed |
| BookingNotification.RefundLeavesList | src/Component/Pages/Booking_Notification/Booking_Notification.jsx:67-69 | after the refund and the refetch the booking is gone and the rest stay |
| BookingHistory.OnUserChange | src/Component/Pages/Profile/Booking_History.jsx:58-62 | fetched only when a user is present |
| BookingHistory.History | src/Component/Pages/Profile/Booking_History.jsx:46-48 | exactly the user's bookings with no refund requested |
| BookingHistory.HistoryIsNotificationList | src/Component/Pages/Profile/Booking_History.jsx:46-49 | the same list as the notifications page, in fetch order |
| RefundNotification.ApprovedRefunds | src/Component/Pages/Refund_Notification/Refund_Notification.jsx:36-38 | exactly the user's bookings whose refund is approved |
| RefundNotification.ApprovedRefundsKeepOrder | src/Component/Pages/Refund_Notification/Refund_Notification.jsx:36-39 | in fetch order |
| RefundNotification.ApprovedRefundsExact | src/Component/Pages/Refund_Notification/Refund_Notification.jsx:36-39 | each as often as fetched, so the total counts them exactly |
| BookingRefund.RefundQueue | src/Component/UserDashboard/UserDashboardComponent/Booking_Refund/Booking_Refund.jsx:20 | exactly the bookings with a refund requested |
| BookingRefund.RefundQueueExact | src/Component/UserDashboard/UserDashboardComponent/Booking_Refund/Booking_Refund.jsx:20 | in order, each as often as fetched |
| BookingRefund.StatusLabel | src/Component/UserDashboard/UserDashboardComponent/Booking_Refund/Booking_Refund.jsx:88 | "Refunded" iff approved, else "Pending" |
| BookingRefund.ButtonOnPendingRows | src/Component/UserDashboard/UserDashboardComponent/Booking_Refund/Booking_Refund.jsx:88-97 | the approve button shows iff the row reads Pending |
| BookingRefund.ApprovalRequest | src/Component/UserDashboard/UserDashboardComponent/Booking_Refund/Booking_Refund.jsx:35-41 | only after confirmation, exactly `{refund: "yes"}` to `/flights-bookings/id` |
| RefundLifecycle.OwnBookingsSplit | src/Component/Pages/Booking_Notification/Booking_Notification.jsx:37-39 | a user's bookings split into the live list and their share of the queue |
| RefundLifecycle.DashboardOrQueue | src/Component/UserDashboard/UserDashboardComponent/UserStatistic/UserStatistic.jsx:45 | every consistent booking is counted on the dashboard or queued for refund, never both |
| RefundLifecycle.DashboardAgreesWithNotifications | src/Component/UserDashboard/UserDashboardComponent/UserStatistic/UserStatistic.jsx:45 | the dashboard's valid bookings of a user are that user's notifications list |
| RefundLifecycle.RequestMovesToQueue | src/Component/Pages/Booking_Notification/Booking_Notification.jsx:55-75 | a requested refund leaves the user's list and enters the queue as Pending with the button |
| RefundLifecycle.ApprovalCompletesRefund | src/Component/UserDashboard/UserDashboardComponent/Booking_Refund/Booking_Refund.jsx:35-53 | an approval labels it Refunded, lists it among the owner's refunds, keeps it off the dashboard |
| RefundLifecycle.RefundsAreNotLive | src/Component/Pages/Refund_Notification/Refund_Notification.jsx:36-38 | an approved refund is never on the live list and always in the queue |
| UserStatistic.ValidBookings | src/Component/UserDashboard/UserDashboardComponent/UserStatistic/UserStatistic.jsx:45 | exactly the bookings neither refunded nor refund-requested |
| UserStatistic.ValidIsBooked | src/Component/UserDashboard/UserDashboardComponent/UserStatistic/UserStatistic.jsx:45 | for a consistent booking, valid iff still booked |
| UserStatistic.TotalEarn | src/Component/UserDashboard/UserDashboardComponent/UserStatistic/UserStatistic.jsx:49-50 | zero when there is no valid booking |
| UserStatistic.TotalEarnSplitsRevenue | src/Component/UserDashboard/UserDashboardComponent/UserStatistic/UserStatistic.jsx:45-50 | earnings plus the refunded bookings' costs are all bookings' costs; non-negative costs give non-negative earnings |
| UserStatistic.FindUserByEmail | src/Component/UserDashboard/UserDashboardComponent/UserStatistic/UserStatistic.jsx:33-34 | the first account with the e-mail, none iff there is no such account |
| UserStatistic.InsertDescending | src/Component/UserDashboard/UserDashboardComponent/UserStatistic/UserStatistic.jsx:53 | one insertion step: the prefix becomes ordered, same elements, the rest untouched |
| UserStatistic.SortDescending | src/Component/UserDashboard/UserDashboardComponent/UserStatistic/UserStatistic.jsx:53-57 | in place: newest first and a permutation of the input |
| UserStatistic.Latest | src/Component/UserDashboard/UserDashboardComponent/UserStatistic/UserStatistic.jsx:53-58 | min(5, n) items, newest first, drawn from the input, none left out newer than one kept |
| UserStatistic.LoadStatistics | src/Component/UserDashboard/UserDashboardComponent/UserStatistic/UserStatistic.jsx:26-58 | only with an e-mail; counts are the array lengths and valid bookings; earnings; the five latest flights and valid bookings |
| Text.ToLower | src/Component/Home/FlightSearch.jsx:23-24 | `toLowerCase` keeps the length and lower-cases each ASCII letter in place |
| Text.ToLowerIdempotent | src/Component/UserDashboard/UserDashboardComponent/Flight_Management/Flight_Management.jsx:111 | lower-casing an already lower-cased text changes nothing |
| Text.IncludesIff | src/Component/Pages/AllFlight/AllFlight.jsx:35-39 | `includes` holds iff the text occurs at some position |
| Text.PadStart | src/Component/Pages/FlightDetail/FlightDetail.jsx:13 | `padStart` reaches the width, ends with the text, fills only with the pad character |
| Seqs.JsSlice | src/Component/Pages/AllFlight/AllFlight.jsx:54 | `slice` is the ordinary sub-list within bounds, clamps an end past the length, is empty when the range is |
| JsValues.SetField | src/Component/UserDashboard/UserDashboardComponent/Add_Flight/Add_Flight.jsx:48-51 | `{...r, [name]: v}`: the named field takes v, every other field unchanged |
| JsValues.Without | src/Component/UserDashboard/UserDashboardComponent/Booking_Flight/Booking_Flight.jsx:110 | every field but the key, unchanged |
| JsValues.StringToNumber | src/Component/UserDashboard/UserDashboardComponent/Booking_Flight/Booking_Flight.jsx:150 | the empty text is 0 and a digit string is its value |

## Left out

- Network: every `fetch`/`axios` request, response and error path, and the picture upload. Fetched arrays, server replies and the uploaded URL are parameters.
- Loading and error flags other than the home-page search, and the order in which late responses arrive.
- Authentication, routing, navigation bar, banner, theme and other layout.
- `window.confirm` and `alert`: a confirmation is a boolean parameter. The flight page's `catch` branch that also says "Booking successful!" is not modelled.
- Time zones and locale formatting: `toLocaleDateString`, `toLocaleString`, `formatCreatedAt` and `formatFlightTime`. Dates are calendar days; "now" is a day and a time of day.
- FlightSearch.DateMatchIsSameDay: the home page compares `toLocaleDateString` of two `Date`s. The model compares the `YYYY-MM-DD` day, which is the same only when both dates fall on the same local day.
- Unicode: lower-casing is ASCII only.
- Money: prices and costs are integers. `JsValues.StringToNumber` reads only optionally negated decimal integers, so `Number` on decimals, exponents, whitespace or hexadecimal is not modelled. Any other text is `NaN`.
- `seatCount` is a natural number, not the string the input field yields.
- The seat count's default of 1 (`FlightDetail.jsx:25`) is the constant `FlightDetail.DefaultSeatCount`; no lemma is stated about it, since the total for any seat count is fixed by `FlightDetail.BookingData`.
- BookingFlight.BookingEditor.HandleInputChange, BookingFlight.BookingEditor.HandleSave, BookingFlight.BookingEditor.Saved: the booking page's edit modal is a placeholder comment (`Booking_Flight.jsx:226`). No element calls these handlers, so they cannot run. They are modelled from their text.
- BookingFlight.BookingEditor.HandleInputChange: for a date that does not parse (an empty date field included), `new Date(value).toISOString()` throws inside the state updater while React renders. The route's error page then replaces the dashboard. The model reports this as `thrown` and, as its own choice, keeps the form state; the error page itself is not modelled. Only the `YYYY-MM-DD` text a date input yields is recognised; other text that `Date` accepts counts as unparseable.
- Profile.ProfileEditor.SaveChanges: on success it stores the corrected merge `Profile.SavedProfile`, not the replacement by `updatedData` at `Profile.jsx:121`. The as-written behaviour is `Profile.SavedProfileAsWritten` (see Findings).
- UserStatistic.SortDescending: `Array.prototype.sort` is stable. The model sorts by insertion, which is also stable, but stability is not stated. Dates are compared by day, not by millisecond.
- UserStatistic.LoadStatistics: the source sorts the fetched flight array in place. The model sorts a copy, which gives the same figures.
- Refund request: the `PUT /flight-bookings/<id>` has no body. That the server then sets `status: "refund"` is the server's behaviour and is assumed (`Bookings.RequestRefund`). The approval goes to `/flights-bookings/<id>`, a different path, and its effect `refund: "yes"` is likewise assumed (`Bookings.ApproveRefund`).
- The history page's refund handler (`src/Component/Pages/Profile/Booking_History.jsx:64-75`) is the same as the notification page's, so `BookingNotification.RefundRequestFor` models both.
- Page reset: on the flights page only pressing Search resets the page to 1. Typing in a field does not, and neither does the model.

## Findings

| source | as written | input that shows it | evidently intended | confidence | as-written member | corrected member |
|---|---|---|---|---|---|---|
| src/Component/Pages/AllFlight/AllFlight.jsx:170-172 | Next is disabled only when `currentPage === totalPages` | a search with no results: totalPages is 0, page 1, Next is enabled and leads to empty page 2, 3, ... | disable Next when `currentPage >= totalPages` | high, not executed | AllFlight.NextEnabledWithoutResults | AllFlight.FlightBrowser.ClickNext |
| src/Component/Pages/Profile/Profile.jsx:121 | after a successful save the profile state becomes `updatedData`, the four form fields without `_id` | save the profile twice without reloading: the second `PUT` goes to `/profile/undefined` | keep the document's `_id`, e.g. `{ ...profileData, ...updatedData }` | high, not executed | Profile.SecondSaveLosesId | Profile.SavedProfileKeepsPath |
