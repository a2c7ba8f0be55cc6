/**
 * The home page's search box (`searchFlights`): the fetched flights are
 * filtered by departure airport, arrival airport and date, each criterion
 * ignored when empty.
 */
module FlightSearch {
  import opened Optional
  import opened Seqs
  import opened Text
  import opened Calendar
  import opened Records

  /** `criterion === "" || airport.toLowerCase().includes(criterion.toLowerCase())`. */
  predicate AirportMatches(airport: string, criterion: string) {
    criterion == "" || Includes(ToLower(airport), ToLower(criterion))
  }

  /**
   * `criterion === "" || toLocaleDateString(new Date(flightDate)) === toLocaleDateString(new Date(criterion))`:
   * both sides are reduced to their calendar day. A criterion that is not a
   * date reads as an invalid date and matches no flight.
   */
  predicate DateMatches(d: Date, criterion: string) {
    criterion == "" || ParseFullDate(criterion) == Some(d)
  }

  predicate Matches(f: Flight, departure: string, arrival: string, date: string) {
    AirportMatches(f.departureAirport, departure)
    && AirportMatches(f.arrivalAirport, arrival)
    && DateMatches(f.flightDate, date)
  }

  /** The filter inside `searchFlights`: a flight is kept iff all three criteria hold. */
  function SearchResults(data: seq<Flight>, departure: string, arrival: string, date: string): (r: seq<Flight>)
    ensures |r| <= |data|
    ensures forall f :: f in r <==> f in data && Matches(f, departure, arrival, date)
  {
    Filter(data, f => Matches(f, departure, arrival, date))
  }

  /** The results keep the fetched order and add nothing. */
  lemma SearchKeepsOrder(data: seq<Flight>, departure: string, arrival: string, date: string)
    ensures IsSubsequence(SearchResults(data, departure, arrival, date), data)
  {
    FilterIsSubsequence(data, f => Matches(f, departure, arrival, date));
  }

  /** The empty-criterion shortcut is redundant: the empty string is contained in every airport. */
  lemma AirportMatchIsSubstring(airport: string, criterion: string)
    ensures AirportMatches(airport, criterion) <==> exists i :: OccursAt(ToLower(airport), ToLower(criterion), i)
  {
    IncludesIff(ToLower(airport), ToLower(criterion));
    if criterion == "" {
      assert ToLower(criterion) == "";
      assert OccursAt(ToLower(airport), ToLower(criterion), 0);
      assert AirportMatches(airport, criterion);
      assert exists i :: OccursAt(ToLower(airport), ToLower(criterion), i);
    } else {
      assert AirportMatches(airport, criterion) == Includes(ToLower(airport), ToLower(criterion));
    }
  }

  /** Matching ignores letter case on both sides. */
  lemma AirportMatchIgnoresCase(airport: string, criterion: string)
    ensures AirportMatches(airport, criterion) == AirportMatches(ToLower(airport), ToLower(criterion))
  {
    ToLowerIdempotent(airport);
    ToLowerIdempotent(criterion);
    if criterion != "" {
      assert |ToLower(criterion)| == |criterion| > 0;
    }
  }

  /** A non-empty date criterion selects exactly the flights on the day it names. */
  lemma DateMatchIsSameDay(d: Date, criterion: string)
    requires ValidDate(d) && criterion != ""
    ensures DateMatches(d, criterion) <==> criterion == FormatFullDate(d)
  {
    if ParseFullDate(criterion) == Some(d) {
      FormatParseRoundTrip(criterion);
    }
    if criterion == FormatFullDate(d) {
      ParseFormatRoundTrip(d);
    }
  }

  /** With every criterion empty the search returns the fetched list unchanged. */
  lemma EmptyCriteriaKeepAll(data: seq<Flight>)
    ensures SearchResults(data, "", "", "") == data
  {
    FilterAll(data, f => Matches(f, "", "", ""));
  }

  /** What the search box shows: the results, the loading flag and the error text. */
  datatype SearchView = SearchView(results: seq<Flight>, loading: bool, error: Option<string>)

  const FetchError := "Error fetching flight data."

  function InitialView(): SearchView {
    SearchView([], false, None)
  }

  /** The start of `searchFlights`: loading on and any previous error cleared. */
  function StartSearch(v: SearchView): (r: SearchView)
    ensures r.loading && r.error == None && r.results == v.results
  {
    SearchView(v.results, true, None)
  }

  /**
   * The end of `searchFlights`, given what the fetch produced (None for a
   * failed request): results on success, the error text on failure, and
   * loading always off.
   */
  function FinishSearch(v: SearchView, fetched: Option<seq<Flight>>, departure: string, arrival: string, date: string): (r: SearchView)
    requires v.loading && v.error == None
    ensures !r.loading
    ensures r.error == None <==> fetched.Some?
    ensures fetched.Some? ==> r.results == SearchResults(fetched.value, departure, arrival, date)
    ensures fetched.None? ==> r.results == v.results && r.error == Some(FetchError)
  {
    match fetched
    case Some(data) => SearchView(SearchResults(data, departure, arrival, date), false, v.error)
    case None => SearchView(v.results, false, Some(FetchError))
  }
}
