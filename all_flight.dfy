/**
 * The flights page: the upcoming flights are loaded once, searched by
 * origin, destination and day, and shown eight to a page with Prev, numbered
 * and Next buttons.
 */
module AllFlight {
  import opened Optional
  import opened Seqs
  import opened Text
  import opened Calendar
  import opened Records
  import FlightSearch

  /** `flightsPerPage`. */
  const FlightsPerPage: nat := 8

  /** `moment(flight.flightDate).isSameOrAfter(moment().startOf("day"))`: on or after today. */
  predicate IsUpcoming(f: Flight, today: Date) {
    Ordinal(f.flightDate) >= Ordinal(today)
  }

  /** The mount effect's filter: the fetched flights dated today or later, in fetched order. */
  function UpcomingFlights(data: seq<Flight>, today: Date): (r: seq<Flight>)
    ensures |r| <= |data|
    ensures forall f :: f in r <==> f in data && IsUpcoming(f, today)
  {
    Filter(data, f => IsUpcoming(f, today))
  }

  /** The upcoming list keeps the fetched order, and each kept flight as often as it was fetched. */
  lemma UpcomingFlightsExact(data: seq<Flight>, today: Date, x: Flight)
    ensures IsSubsequence(UpcomingFlights(data, today), data)
    ensures multiset(UpcomingFlights(data, today))[x] == if IsUpcoming(x, today) then multiset(data)[x] else 0
  {
    FilterIsSubsequence(data, f => IsUpcoming(f, today));
    FilterMultiplicity(data, f => IsUpcoming(f, today), x);
  }

  /**
   * The predicate inside `handleSearch`: case-insensitive containment of the
   * origin and destination, and, when a date is set, the same `YYYY-MM-DD` day.
   */
  predicate MatchesSearch(f: Flight, origin: string, destination: string, date: string) {
    Includes(ToLower(f.departureAirport), ToLower(origin))
    && Includes(ToLower(f.arrivalAirport), ToLower(destination))
    && (date == "" || FormatFullDate(f.flightDate) == date)
  }

  function SearchFlights(flights: seq<Flight>, origin: string, destination: string, date: string): (r: seq<Flight>)
    ensures |r| <= |flights|
    ensures forall f :: f in r <==> f in flights && MatchesSearch(f, origin, destination, date)
  {
    Filter(flights, f => MatchesSearch(f, origin, destination, date))
  }

  /** The search only removes flights: what is left keeps the loaded order. */
  lemma SearchKeepsOrder(flights: seq<Flight>, origin: string, destination: string, date: string)
    ensures IsSubsequence(SearchFlights(flights, origin, destination, date), flights)
  {
    FilterIsSubsequence(flights, f => MatchesSearch(f, origin, destination, date));
  }

  /** Searching with every field empty gives back the whole upcoming list. */
  lemma EmptySearchKeepsAll(flights: seq<Flight>)
    ensures SearchFlights(flights, "", "", "") == flights
  {
    assert ToLower("") == "";
    forall f | f in flights
      ensures MatchesSearch(f, "", "", "")
    {
      IncludesEmpty(ToLower(f.departureAirport));
      IncludesEmpty(ToLower(f.arrivalAirport));
    }
    FilterAll(flights, f => MatchesSearch(f, "", "", ""));
  }

  /**
   * This page and the home page's search box select the same flights, given
   * valid flight dates and a date criterion that is empty or a full-date (what
   * a date input produces).
   */
  lemma SameResultsAsHomeSearch(flights: seq<Flight>, origin: string, destination: string, date: string)
    requires forall f :: f in flights ==> ValidDate(f.flightDate)
    requires date == "" || ParseFullDate(date).Some?
    ensures SearchFlights(flights, origin, destination, date) == FlightSearch.SearchResults(flights, origin, destination, date)
  {
    forall f | f in flights
      ensures MatchesSearch(f, origin, destination, date) == FlightSearch.Matches(f, origin, destination, date)
    {
      FlightSearch.AirportMatchIsSubstring(f.departureAirport, origin);
      FlightSearch.AirportMatchIsSubstring(f.arrivalAirport, destination);
      IncludesIff(ToLower(f.departureAirport), ToLower(origin));
      IncludesIff(ToLower(f.arrivalAirport), ToLower(destination));
      if date != "" {
        FlightSearch.DateMatchIsSameDay(f.flightDate, date);
      }
    }
    FilterCongruent(flights, f => MatchesSearch(f, origin, destination, date),
                    f => FlightSearch.Matches(f, origin, destination, date));
  }

  /** `Math.ceil(n / flightsPerPage)`. */
  function TotalPages(n: nat): (r: nat)
    ensures r * FlightsPerPage >= n
    ensures r * FlightsPerPage < n + FlightsPerPage
  {
    (n + FlightsPerPage - 1) / FlightsPerPage
  }

  /** `searchResults.slice(indexOfFirstFlight, indexOfLastFlight)` for a page number. */
  function PageOf(results: seq<Flight>, page: int): (r: seq<Flight>)
    ensures page >= 1 ==> |r| <= FlightsPerPage
    ensures page >= 1 && (page - 1) * FlightsPerPage <= |results|
            ==> r == results[(page - 1) * FlightsPerPage..Min(page * FlightsPerPage, |results|)]
    ensures page >= 1 && (page - 1) * FlightsPerPage >= |results| ==> r == []
  {
    var indexOfLastFlight := page * FlightsPerPage;
    var indexOfFirstFlight := indexOfLastFlight - FlightsPerPage;
    JsSlice(results, indexOfFirstFlight, indexOfLastFlight)
  }

  /** `Array.from({ length: totalPages }, (_, index) => index + 1)`: the numbered buttons. */
  function PageNumbers(totalPages: nat): (r: seq<int>)
    ensures |r| == totalPages
    ensures forall i :: 0 <= i < |r| ==> r[i] == i + 1
  {
    if totalPages == 0 then [] else PageNumbers(totalPages - 1) + [totalPages]
  }

  /** The buttons are exactly the pages 1..totalPages. */
  lemma PageNumbersAreThePages(totalPages: nat, k: int)
    ensures k in PageNumbers(totalPages) <==> 1 <= k <= totalPages
  {
    if 1 <= k <= totalPages {
      assert PageNumbers(totalPages)[k - 1] == k;
    }
  }

  /** Pages 1..k laid end to end. */
  function JoinPages(results: seq<Flight>, k: nat): seq<Flight> {
    if k == 0 then [] else JoinPages(results, k - 1) + PageOf(results, k)
  }

  lemma {:induction false} JoinPagesIsPrefix(results: seq<Flight>, k: nat)
    ensures JoinPages(results, k) == results[..Min(k * FlightsPerPage, |results|)]
  {
    if k > 0 {
      JoinPagesIsPrefix(results, k - 1);
    }
  }

  /** The pages 1..totalPages, read in order, are exactly the results: nothing lost, repeated or moved. */
  lemma PagesCoverResults(results: seq<Flight>)
    ensures JoinPages(results, TotalPages(|results|)) == results
  {
    JoinPagesIsPrefix(results, TotalPages(|results|));
  }

  /** Every numbered page has flights on it; a page past the last is empty. */
  lemma PageOccupancy(results: seq<Flight>, page: int)
    requires page >= 1
    ensures page <= TotalPages(|results|) <==> PageOf(results, page) != []
  {
  }

  /** The last page holds `n mod 8` flights, or 8 when that is zero. */
  lemma LastPageSize(results: seq<Flight>)
    requires |results| > 0
    ensures |PageOf(results, TotalPages(|results|))|
            == if |results| % FlightsPerPage == 0 then FlightsPerPage else |results| % FlightsPerPage
  {
  }

  /** Prev is disabled on the first page. */
  predicate PrevDisabled(currentPage: int) {
    currentPage == 1
  }

  /** Next as written: `disabled={currentPage === totalPages}`. */
  predicate NextDisabledAsWritten(currentPage: int, totalPages: nat) {
    currentPage == totalPages
  }

  /** With no results there are no pages, yet Next as written is enabled on page 1 and leads past the end. */
  lemma NextEnabledWithoutResults()
    ensures TotalPages(0) == 0
    ensures !NextDisabledAsWritten(1, TotalPages(0))
    ensures 1 + 1 > Max(1, TotalPages(0))
  {
  }

  /** Next as intended: disabled on the last page and whenever there is no later page. */
  predicate NextDisabled(currentPage: int, totalPages: nat) {
    currentPage >= totalPages
  }

  /** Whenever there is at least one page the correction agrees with the written test. */
  lemma NextCorrectionOnlyForNoResults(currentPage: int, totalPages: nat)
    requires 1 <= currentPage <= totalPages
    ensures NextDisabled(currentPage, totalPages) == NextDisabledAsWritten(currentPage, totalPages)
  {
  }

  /** The page a Prev or Next click lands on stays between 1 and the last page (1 when there is none). */
  lemma PrevNextStayInRange(currentPage: int, totalPages: nat)
    requires 1 <= currentPage <= Max(1, totalPages)
    ensures !PrevDisabled(currentPage) ==> 1 <= currentPage - 1
    ensures !NextDisabled(currentPage, totalPages) ==> currentPage + 1 <= Max(1, totalPages)
  {
  }

  /** The page's state: the loaded flights, the search fields, the results and the page shown. */
  class FlightBrowser {
    var flights: seq<Flight>
    var searchResults: seq<Flight>
    var origin: string
    var destination: string
    var date: string
    var currentPage: int
    var loaded: bool

    /** The current page is always a real page, or page 1 when there are none. */
    ghost predicate Valid()
      reads this
    {
      && 1 <= currentPage <= Max(1, TotalPages(|searchResults|))
      && (!loaded ==> flights == [] && searchResults == [])
    }

    constructor ()
      ensures Valid()
      ensures flights == [] && searchResults == [] && currentPage == 1 && !loaded
      ensures origin == "" && destination == "" && date == ""
    {
      flights, searchResults := [], [];
      origin, destination, date := "", "", "";
      currentPage := 1;
      loaded := false;
    }

    /** The mount effect: the upcoming flights become both the loaded list and the results. */
    method Load(data: seq<Flight>, today: Date)
      requires Valid() && !loaded
      modifies this`flights, this`searchResults, this`loaded
      ensures Valid() && loaded
      ensures flights == UpcomingFlights(data, today) && searchResults == flights
    {
      flights := UpcomingFlights(data, today);
      searchResults := flights;
      loaded := true;
    }

    method SetOrigin(value: string)
      modifies this`origin
      ensures origin == value
    {
      origin := value;
    }

    method SetDestination(value: string)
      modifies this`destination
      ensures destination == value
    {
      destination := value;
    }

    method SetDate(value: string)
      modifies this`date
      ensures date == value
    {
      date := value;
    }

    /** `handleSearch`: filter the loaded flights and go back to page 1. */
    method HandleSearch()
      requires Valid()
      modifies this`searchResults, this`currentPage
      ensures Valid()
      ensures searchResults == SearchFlights(flights, origin, destination, date)
      ensures currentPage == 1
    {
      searchResults := SearchFlights(flights, origin, destination, date);
      currentPage := 1;
    }

    /** A numbered button: `paginate(index + 1)`. */
    method ClickPageNumber(page: int)
      requires Valid()
      requires page in PageNumbers(TotalPages(|searchResults|))
      modifies this`currentPage
      ensures Valid() && currentPage == page
    {
      PageNumbersAreThePages(TotalPages(|searchResults|), page);
      currentPage := page;
    }

    /** Prev: `paginate(currentPage - 1)` unless disabled. */
    method ClickPrev()
      requires Valid()
      modifies this`currentPage
      ensures Valid()
      ensures currentPage == if PrevDisabled(old(currentPage)) then old(currentPage) else old(currentPage) - 1
    {
      if !PrevDisabled(currentPage) {
        currentPage := currentPage - 1;
      }
    }

    /** Next: `paginate(currentPage + 1)` unless disabled (the corrected test). */
    method ClickNext()
      requires Valid()
      modifies this`currentPage
      ensures Valid()
      ensures currentPage == if NextDisabled(old(currentPage), TotalPages(|searchResults|)) then old(currentPage) else old(currentPage) + 1
    {
      if !NextDisabled(currentPage, TotalPages(|searchResults|)) {
        currentPage := currentPage + 1;
      }
    }

    /** `currentFlights`: the page on screen, at most eight consecutive results. */
    function CurrentFlights(): (r: seq<Flight>)
      reads this
      requires Valid()
      ensures |r| <= FlightsPerPage
      ensures r == JsSlice(searchResults, (currentPage - 1) * FlightsPerPage, currentPage * FlightsPerPage)
      ensures searchResults != [] ==> r != [] && r == searchResults[(currentPage - 1) * FlightsPerPage..Min(currentPage * FlightsPerPage, |searchResults|)]
    {
      PageOf(searchResults, currentPage)
    }
  }
}
