/** The administrator's "Booking Flights" page: every booking, searchable, editable and deletable. */
module BookingFlight {
  import opened Optional
  import opened Seqs
  import opened Text
  import opened Calendar
  import opened Records
  import opened JsValues
  import opened Forms

  /** `flight._id !== id`: the bookings a delete keeps. */
  predicate Other(b: Booking, id: string) {
    b.id != id
  }

  /** `filter((flight) => flight._id !== id)` after a delete. */
  function DeleteBooking(data: seq<Booking>, id: string): (r: seq<Booking>)
    ensures forall b :: b in r <==> b in data && b.id != id
  {
    Filter(data, b => Other(b, id))
  }

  /** Delete keeps every other booking, as often as it was there, in order. */
  lemma DeleteBookingExact(data: seq<Booking>, id: string, b: Booking)
    ensures IsSubsequence(DeleteBooking(data, id), data)
    ensures multiset(DeleteBooking(data, id))[b] == if b.id != id then multiset(data)[b] else 0
  {
    FilterIsSubsequence(data, x => Other(x, id));
    FilterMultiplicity(data, x => Other(x, id), b);
  }

  /** `flight.flightNumber && flight.flightNumber.toLowerCase().includes(searchTerm.toLowerCase())`. */
  predicate NumberMatches(b: Booking, term: string) {
    b.flightNumber.Some? && b.flightNumber.value != ""
    && Includes(ToLower(b.flightNumber.value), ToLower(term))
  }

  /** A booking with a non-empty flight number. */
  predicate Numbered(b: Booking) {
    b.flightNumber.Some? && b.flightNumber.value != ""
  }

  function SearchBookings(data: seq<Booking>, term: string): (r: seq<Booking>)
    ensures forall b :: b in r <==> b in data && NumberMatches(b, term)
  {
    Filter(data, b => NumberMatches(b, term))
  }

  /**
   * A booking without a flight number never shows; with an empty term every
   * other booking does, in order.
   */
  lemma SearchBookingsFacts(data: seq<Booking>, term: string)
    ensures forall b :: b in SearchBookings(data, term) ==> b.flightNumber.Some? && b.flightNumber.value != ""
    ensures IsSubsequence(SearchBookings(data, term), data)
    ensures SearchBookings(data, "") == Filter(data, Numbered)
  {
    FilterIsSubsequence(data, b => NumberMatches(b, term));
    assert ToLower("") == "";
    forall b | b in data && b.flightNumber.Some?
      ensures Includes(ToLower(b.flightNumber.value), ToLower(""))
    {
      IncludesEmpty(ToLower(b.flightNumber.value));
    }
    FilterCongruent(data, b => NumberMatches(b, ""), Numbered);
  }

  /** The six text fields, in checking order, with their messages. */
  function BookingRules(): seq<Rule> {
    [Rule("flightNumber", "Flight number is required."),
     Rule("userEmail", "Email is required."),
     Rule("departureAirport", "Departure airport is required."),
     Rule("arrivalAirport", "Arrival airport is required."),
     Rule("flightDate", "Flight date is required."),
     Rule("flightTime", "Flight time is required.")]
  }

  const CostMessage := "Price should be a positive number."

  /** `!data.totalCost || data.totalCost <= 0`. */
  predicate CostInvalid(v: Value) {
    !Truthy(v) || AtMostZero(v)
  }

  /** The cost check, run after the six field checks. */
  function CostCheck(data: Record, errors: map<string, string>): map<string, string> {
    if CostInvalid(Get(data, "totalCost")) then errors["totalCost" := CostMessage] else errors
  }

  /** The errors `validateForm` returns. */
  function BookingFormErrors(data: Record): map<string, string> {
    CostCheck(data, MissingFields(data, BookingRules()))
  }

  /** The six field checks of `validateForm`, one after another. */
  method CheckBookingFields(data: Record) returns (errors: map<string, string>)
    ensures errors == MissingFields(data, BookingRules())
  {
    errors := map[];
    errors := CheckRequired(data, errors, "flightNumber", "Flight number is required.");
    errors := CheckRequired(data, errors, "userEmail", "Email is required.");
    errors := CheckRequired(data, errors, "departureAirport", "Departure airport is required.");
    errors := CheckRequired(data, errors, "arrivalAirport", "Arrival airport is required.");
    errors := CheckRequired(data, errors, "flightDate", "Flight date is required.");
    errors := CheckRequired(data, errors, "flightTime", "Flight time is required.");
  }

  /** `validateForm`. */
  method ValidateBookingForm(data: Record) returns (errors: map<string, string>)
    ensures errors == BookingFormErrors(data)
  {
    errors := CheckBookingFields(data);
    if !Truthy(Get(data, "totalCost")) || AtMostZero(Get(data, "totalCost")) {
      errors := errors["totalCost" := CostMessage];
    }
  }

  lemma BookingRulesShape()
    ensures DistinctKeys(BookingRules())
    ensures forall j :: 0 <= j < |BookingRules()| ==> BookingRules()[j].key != "totalCost"
  {
  }

  /** The form passes exactly when the six text fields are filled in and the cost is positive. */
  lemma BookingFormValidIff(data: Record)
    ensures BookingFormErrors(data) == map[]
            <==> (forall j :: 0 <= j < |BookingRules()| ==> Truthy(Get(data, BookingRules()[j].key)))
                 && !CostInvalid(Get(data, "totalCost"))
  {
    NoMissingFieldsIff(data, BookingRules());
    if CostInvalid(Get(data, "totalCost")) {
      assert "totalCost" in BookingFormErrors(data);
    }
  }

  /** A missing, zero or negative cost always draws the cost message; a positive number never does. */
  lemma CostErrorCases(data: Record)
    ensures Get(data, "totalCost") == Undefined ==> BookingFormErrors(data)["totalCost"] == CostMessage
    ensures Get(data, "totalCost") == Str("") ==> BookingFormErrors(data)["totalCost"] == CostMessage
    ensures Get(data, "totalCost").Num? && Get(data, "totalCost").n <= 0 ==> BookingFormErrors(data)["totalCost"] == CostMessage
    ensures Get(data, "totalCost").Num? && Get(data, "totalCost").n > 0 ==> "totalCost" !in BookingFormErrors(data)
  {
    BookingRulesShape();
    RequireFromKeys(data, map[], BookingRules(), 0, "totalCost");
  }

  /** `Number("abc")` is `NaN`, and `NaN <= 0` is false: a non-numeric cost text passes the check. */
  lemma NonNumericCostPasses(data: Record)
    requires Get(data, "totalCost") == Str("abc")
    ensures "totalCost" !in BookingFormErrors(data)
  {
    BookingRulesShape();
    RequireFromKeys(data, map[], BookingRules(), 0, "totalCost");
  }

  /** `handleEdit`: the eight fields loaded from the chosen booking. */
  function EditForm(b: Booking): (r: Record)
    ensures r.Keys == {"_id", "flightNumber", "userEmail", "departureAirport", "arrivalAirport", "flightDate", "flightTime", "totalCost"}
    ensures r["_id"] == Str(b.id) && r["flightNumber"] == FromOption(b.flightNumber) && r["userEmail"] == Str(b.user.email)
    ensures r["departureAirport"] == Str(b.departureAirport) && r["arrivalAirport"] == Str(b.arrivalAirport)
    ensures r["flightDate"] == Str(FormatFullDate(b.flightDate)) && r["flightTime"] == Str(FormatTime(b.flightTime))
    ensures r["totalCost"] == Num(b.totalCost)
  {
    map["_id" := Str(b.id), "flightNumber" := FromOption(b.flightNumber), "userEmail" := Str(b.user.email),
        "departureAirport" := Str(b.departureAirport), "arrivalAirport" := Str(b.arrivalAirport),
        "flightDate" := Str(FormatFullDate(b.flightDate)), "flightTime" := Str(FormatTime(b.flightTime)),
        "totalCost" := Num(b.totalCost)]
  }

  /** A complete booking with a positive cost, loaded unchanged, passes validation. */
  lemma UnchangedCompleteBookingValidates(b: Booking)
    requires b.flightNumber.Some? && b.flightNumber.value != "" && b.user.email != ""
    requires b.departureAirport != "" && b.arrivalAirport != "" && b.totalCost > 0
    ensures BookingFormErrors(EditForm(b)) == map[]
  {
    var f := EditForm(b);
    assert Truthy(Get(f, "flightDate")) && Truthy(Get(f, "flightTime"));
    BookingFormValidIff(f);
  }

  /** `const { _id, ...updatedData } = formData`: the body of the update. */
  function UpdatePayload(form: Record): (r: Record)
    ensures "_id" !in r
    ensures r.Keys == form.Keys - {"_id"}
    ensures forall k :: k in r ==> r[k] == form[k]
  {
    Without(form, "_id")
  }

  const BookingPath := "/flight-booking/"

  /** The page's state. */
  class BookingEditor {
    var flights: seq<Booking>
    var searchTerm: string
    var formData: Record
    var formErrors: map<string, string>
    var isModalOpen: bool

    constructor ()
      ensures flights == [] && searchTerm == "" && formData == map[] && formErrors == map[] && !isModalOpen
    {
      flights, searchTerm := [], "";
      formData, formErrors := map[], map[];
      isModalOpen := false;
    }

    /** `fetchFlights` resolved with the stored bookings. */
    method Loaded(data: seq<Booking>)
      modifies this`flights
      ensures flights == data
    {
      flights := data;
    }

    method SetSearchTerm(term: string)
      modifies this`searchTerm
      ensures searchTerm == term
    {
      searchTerm := term;
    }

    /** `filteredFlights`. */
    function Shown(): seq<Booking>
      reads this
    {
      SearchBookings(flights, searchTerm)
    }

    /**
     * `handleDelete`: nothing unless confirmed; otherwise the `DELETE` goes out
     * and, once it resolves, the booking leaves the list.
     */
    method HandleDelete(id: string, confirmed: bool, resolved: bool) returns (deletePath: Option<string>)
      modifies this`flights
      ensures deletePath.Some? <==> confirmed
      ensures deletePath.Some? ==> deletePath.value == BookingPath + id
      ensures flights == if confirmed && resolved then DeleteBooking(old(flights), id) else old(flights)
    {
      if !confirmed {
        return None;
      }
      deletePath := Some(BookingPath + id);
      if resolved {
        flights := DeleteBooking(flights, id);
      }
    }

    /** `handleEdit`. */
    method HandleEdit(b: Booking)
      modifies this`formData, this`isModalOpen
      ensures formData == EditForm(b) && isModalOpen
    {
      formData := EditForm(b);
      isModalOpen := true;
    }

    /**
     * `handleInputChange`: a date is stored in its `YYYY-MM-DD` form, anything
     * else verbatim. For a date that does not parse, `new Date(value).toISOString()`
     * throws inside the state updater, while the page renders: `thrown` reports
     * that, and the route's error page replaces the dashboard with the form state
     * left as it was.
     */
    method HandleInputChange(name: string, value: string) returns (thrown: bool)
      modifies this`formData
      ensures thrown <==> name == "flightDate" && ParseFullDate(value).None?
      ensures name != "flightDate" ==> formData == SetField(old(formData), name, Str(value))
      ensures name == "flightDate" && ParseFullDate(value).Some?
              ==> formData == SetField(old(formData), name, Str(FormatFullDate(ParseFullDate(value).value)))
      ensures thrown ==> formData == old(formData)
    {
      thrown := false;
      if name == "flightDate" {
        match ParseFullDate(value)
        case Some(d) => formData := SetField(formData, name, Str(FormatFullDate(d)));
        case None => thrown := true;
      } else {
        formData := SetField(formData, name, Str(value));
      }
    }

    /**
     * `handleSave`: the errors are shown; only an error-free form is sent,
     * as a `PUT` of everything but `_id` to that `_id`.
     */
    method HandleSave() returns (r: Option<PutRequest>)
      modifies this`formErrors
      ensures formErrors == BookingFormErrors(formData)
      ensures r.Some? <==> formErrors == map[]
      ensures r.Some? ==> r.value == PutRequest(BookingPath + PathText(Get(formData, "_id")), Some(UpdatePayload(formData)))
    {
      var errors := ValidateBookingForm(formData);
      formErrors := errors;
      if |errors| > 0 {
        return None;
      }
      r := Some(PutRequest(BookingPath + PathText(Get(formData, "_id")), Some(UpdatePayload(formData))));
    }

    /** The update resolved: the list is fetched again and the modal closes. */
    method Saved(data: seq<Booking>)
      modifies this`flights, this`isModalOpen
      ensures flights == data && !isModalOpen
    {
      flights := data;
      isModalOpen := false;
    }
  }

  /** A date typed into the form is stored so that it reads back as the same day. */
  lemma StoredDateReadsBack(value: string)
    requires ParseFullDate(value).Some?
    ensures ParseFullDate(FormatFullDate(ParseFullDate(value).value)) == ParseFullDate(value)
  {
    ParseFormatRoundTrip(ParseFullDate(value).value);
  }
}
