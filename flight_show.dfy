/** The home page's "Available Flights" list: the first five flights that have not yet departed. */
module FlightShow {
  import opened Seqs
  import opened Calendar
  import opened Records
  import AllFlight

  const ShownCount: nat := 5

  /** `new Date(flight.flightDate) >= currentDate`: the flight's day starts at or after now. */
  predicate IsUpcoming(f: Flight, now: Instant) {
    AtOrAfter(StartOfDay(f.flightDate), now)
  }

  function UpcomingFlights(data: seq<Flight>, now: Instant): (r: seq<Flight>)
    ensures forall f :: f in r <==> f in data && IsUpcoming(f, now)
  {
    Filter(data, f => IsUpcoming(f, now))
  }

  /** `upcomingFlights.slice(0, 5)`: the first five upcoming flights, all of them when fewer. */
  function ShownFlights(data: seq<Flight>, now: Instant): (r: seq<Flight>)
    ensures |r| <= ShownCount
    ensures r <= UpcomingFlights(data, now)
    ensures |UpcomingFlights(data, now)| <= ShownCount ==> r == UpcomingFlights(data, now)
    ensures |UpcomingFlights(data, now)| >= ShownCount ==> |r| == ShownCount
    ensures forall f :: f in r ==> f in data && IsUpcoming(f, now)
  {
    JsSlice(UpcomingFlights(data, now), 0, ShownCount)
  }

  /** The list keeps the fetched order. */
  lemma ShownKeepsOrder(data: seq<Flight>, now: Instant)
    ensures IsSubsequence(UpcomingFlights(data, now), data)
  {
    FilterIsSubsequence(data, f => IsUpcoming(f, now));
  }

  /** "No upcoming flights available." appears iff no fetched flight is upcoming. */
  lemma EmptyMessageIffNoneUpcoming(data: seq<Flight>, now: Instant)
    ensures |ShownFlights(data, now)| == 0 <==> forall f :: f in data ==> !IsUpcoming(f, now)
  {
    var up := UpcomingFlights(data, now);
    if up != [] {
      assert up[0] in up;
    }
  }

  /**
   * Every flight shown here also passes the flights page's filter for the same
   * day (that page compares days, this one instants, so it may keep more).
   */
  lemma ShownAreUpcomingOnFlightsPage(data: seq<Flight>, now: Instant)
    ensures forall f :: f in ShownFlights(data, now) ==> f in AllFlight.UpcomingFlights(data, now.date)
  {
  }

  /** At the very start of a day both pages keep exactly the same flights. */
  lemma SameAsFlightsPageAtMidnight(data: seq<Flight>, today: Date)
    ensures UpcomingFlights(data, StartOfDay(today)) == AllFlight.UpcomingFlights(data, today)
  {
    FilterCongruent(data, f => IsUpcoming(f, StartOfDay(today)), f => AllFlight.IsUpcoming(f, today));
  }
}
