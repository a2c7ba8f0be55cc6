/** The administrator's "Flight Management" page: every flight, searchable, editable and deletable. */
module FlightManagement {
  import opened Optional
  import opened Seqs
  import opened Text
  import opened Calendar
  import opened Records
  import opened JsValues

  /** `flight._id !== id`: the flights a delete keeps. */
  predicate Other(f: Flight, id: string) {
    f.id != id
  }

  /** `flights.filter((flight) => flight._id !== id)` once the `DELETE` resolves. */
  function DeleteFlight(flights: seq<Flight>, id: string): (r: seq<Flight>)
    ensures forall f :: f in r <==> f in flights && f.id != id
  {
    Filter(flights, f => Other(f, id))
  }

  /** Delete keeps every other flight, as often as it was there, in order. */
  lemma DeleteFlightExact(flights: seq<Flight>, id: string, f: Flight)
    ensures IsSubsequence(DeleteFlight(flights, id), flights)
    ensures multiset(DeleteFlight(flights, id))[f] == if f.id != id then multiset(flights)[f] else 0
  {
    FilterIsSubsequence(flights, x => Other(x, id));
    FilterMultiplicity(flights, x => Other(x, id), f);
  }

  /** Deleting an id that no listed flight carries changes nothing. */
  lemma DeleteUnknownId(flights: seq<Flight>, id: string)
    requires forall f :: f in flights ==> f.id != id
    ensures DeleteFlight(flights, id) == flights
  {
    FilterAll(flights, f => Other(f, id));
  }

  /** `flight.flightNumber.toLowerCase().includes(searchTerm.toLowerCase())`. */
  predicate NumberMatches(f: Flight, term: string) {
    Includes(ToLower(f.flightNumber), ToLower(term))
  }

  /** `filteredFlights`. */
  function SearchByNumber(flights: seq<Flight>, term: string): (r: seq<Flight>)
    ensures forall f :: f in r <==> f in flights && NumberMatches(f, term)
  {
    Filter(flights, f => NumberMatches(f, term))
  }

  /**
   * The search ignores the letter case of the term, keeps the list's order,
   * and an empty term shows every flight.
   */
  lemma SearchByNumberFacts(flights: seq<Flight>, term: string)
    ensures SearchByNumber(flights, ToLower(term)) == SearchByNumber(flights, term)
    ensures IsSubsequence(SearchByNumber(flights, term), flights)
    ensures SearchByNumber(flights, "") == flights
  {
    ToLowerIdempotent(term);
    FilterCongruent(flights, f => NumberMatches(f, ToLower(term)), f => NumberMatches(f, term));
    FilterIsSubsequence(flights, f => NumberMatches(f, term));
    forall f | f in flights
      ensures NumberMatches(f, "")
    {
      IncludesEmpty(ToLower(f.flightNumber));
    }
    FilterAll(flights, f => NumberMatches(f, ""));
  }

  /** The form's initial state: six empty fields. */
  function EmptyEditForm(): (r: Record)
    ensures r.Keys == {"flightNumber", "departureAirport", "arrivalAirport", "flightDate", "flightTime", "price"}
    ensures forall k :: k in r ==> r[k] == Str("")
  {
    map["flightNumber" := Str(""), "departureAirport" := Str(""), "arrivalAirport" := Str(""),
        "flightDate" := Str(""), "flightTime" := Str(""), "price" := Str("")]
  }

  /**
   * `handleEdit`'s form: the six editable fields as the flight document
   * stores them (date `YYYY-MM-DD`, time `HH:mm`, price a number).
   */
  function EditForm(f: Flight): (r: Record)
    ensures r.Keys == EmptyEditForm().Keys
    ensures r["flightNumber"] == Str(f.flightNumber) && r["price"] == Num(f.price)
    ensures r["departureAirport"] == Str(f.departureAirport) && r["arrivalAirport"] == Str(f.arrivalAirport)
    ensures r["flightDate"] == Str(FormatFullDate(f.flightDate)) && r["flightTime"] == Str(FormatTime(f.flightTime))
  {
    map["flightNumber" := Str(f.flightNumber), "departureAirport" := Str(f.departureAirport),
        "arrivalAirport" := Str(f.arrivalAirport), "flightDate" := Str(FormatFullDate(f.flightDate)),
        "flightTime" := Str(FormatTime(f.flightTime)), "price" := Num(f.price)]
  }

  /** A form loaded from a flight and saved untouched puts back the flight's own date. */
  lemma EditFormKeepsDate(f: Flight)
    requires ValidDate(f.flightDate)
    ensures Get(EditForm(f), "flightDate").Str?
    ensures ParseFullDate(Get(EditForm(f), "flightDate").s) == Some(f.flightDate)
  {
    ParseFormatRoundTrip(f.flightDate);
  }

  const FlightPath := "/flights/"

  /** The page's state. */
  class FlightManager {
    var flights: seq<Flight>
    var selectedFlight: Option<Flight>
    var formData: Record
    var searchTerm: string
    var isModalOpen: bool

    constructor ()
      ensures flights == [] && selectedFlight == None && formData == EmptyEditForm()
      ensures searchTerm == "" && !isModalOpen
    {
      flights, selectedFlight := [], None;
      formData, searchTerm := EmptyEditForm(), "";
      isModalOpen := false;
    }

    /** `fetchFlights` resolved (on mount, and again after a save). */
    method Loaded(data: seq<Flight>)
      modifies this`flights
      ensures flights == data
    {
      flights := data;
    }

    method SetSearchTerm(term: string)
      modifies this`searchTerm
      ensures searchTerm == term
    {
      searchTerm := term;
    }

    /** The rows shown. */
    function Shown(): (r: seq<Flight>)
      reads this
      ensures forall f :: f in r <==> f in flights && NumberMatches(f, searchTerm)
    {
      SearchByNumber(flights, searchTerm)
    }

    /**
     * `handleDelete`: nothing unless confirmed; otherwise the `DELETE` goes
     * out, and once it resolves the flight leaves the list.
     */
    method HandleDelete(id: string, confirmed: bool, resolved: bool) returns (deletePath: Option<string>)
      modifies this`flights
      ensures deletePath.Some? <==> confirmed
      ensures deletePath.Some? ==> deletePath.value == FlightPath + id
      ensures flights == if confirmed && resolved then DeleteFlight(old(flights), id) else old(flights)
    {
      if !confirmed {
        return None;
      }
      deletePath := Some(FlightPath + id);
      if resolved {
        flights := DeleteFlight(flights, id);
      }
    }

    /** `handleEdit`: remember the flight, load its fields, open the modal. */
    method HandleEdit(f: Flight)
      modifies this`selectedFlight, this`formData, this`isModalOpen
      ensures selectedFlight == Some(f) && formData == EditForm(f) && isModalOpen
    {
      selectedFlight := Some(f);
      formData := EditForm(f);
      isModalOpen := true;
    }

    /** `handleInputChange`: the typed text replaces one field. */
    method HandleInputChange(name: string, value: string)
      modifies this`formData
      ensures formData == SetField(old(formData), name, Str(value))
    {
      formData := SetField(formData, name, Str(value));
    }

    /**
     * `handleSave`: after a confirmation, a `PUT` of the whole form, without
     * any validation, to the selected flight. With no flight selected,
     * `selectedFlight._id` throws and nothing is sent.
     */
    method HandleSave(confirmed: bool) returns (r: Option<PutRequest>)
      ensures r.Some? <==> confirmed && selectedFlight.Some?
      ensures r.Some? ==> r.value == PutRequest(FlightPath + selectedFlight.value.id, Some(formData))
    {
      if !confirmed || selectedFlight.None? {
        return None;
      }
      r := Some(PutRequest(FlightPath + selectedFlight.value.id, Some(formData)));
    }

    /** The save resolved: the list is fetched again and the modal closes. */
    method Saved(data: seq<Flight>)
      modifies this`flights, this`isModalOpen
      ensures flights == data && !isModalOpen
    {
      flights := data;
      isModalOpen := false;
    }
  }
}
