/**
 * The administrator's dashboard figures: counts of users and flights, the
 * bookings that still stand and their earnings, and the five newest flights
 * and bookings.
 */
module UserStatistic {
  import opened Optional
  import opened Seqs
  import opened Calendar
  import opened Records
  import opened Bookings

  /** `slice(0, 5)` after each sort. */
  const LatestCount: nat := 5

  /** `booking.refund !== "yes" && booking.status !== "refund"`. */
  predicate IsValidBooking(b: Booking) {
    b.refund != Some("yes") && b.status != Some("refund")
  }

  function ValidBookings(data: seq<Booking>): (r: seq<Booking>)
    ensures |r| <= |data|
    ensures forall b :: b in r <==> b in data && !RefundRequested(b) && !RefundApproved(b)
  {
    Filter(data, IsValidBooking)
  }

  /** A booking still stands exactly while it is at the first stage of its life-cycle (given consistent refund fields). */
  lemma ValidIsBooked(b: Booking)
    requires Consistent(b)
    ensures IsValidBooking(b) <==> StageOf(b) == Booked
  {
  }

  function Cost(b: Booking): int { b.totalCost }

  /** `validBookings.reduce((total, booking) => total + booking.totalCost, 0)`. */
  function TotalEarn(data: seq<Booking>): (r: int)
    ensures ValidBookings(data) == [] ==> r == 0
  {
    SumBy(ValidBookings(data), Cost)
  }

  /**
   * The earnings and the refunded or pending amounts add up to the value of
   * every booking; with non-negative costs the earnings are never negative.
   */
  lemma TotalEarnSplitsRevenue(data: seq<Booking>)
    ensures TotalEarn(data) + SumBy(Filter(data, Not(IsValidBooking)), Cost) == SumBy(data, Cost)
    ensures (forall b :: b in data ==> b.totalCost >= 0) ==> TotalEarn(data) >= 0
  {
    SumByPartition(data, IsValidBooking, Cost);
    if forall b :: b in data ==> b.totalCost >= 0 {
      SumByNonNegative(ValidBookings(data), Cost);
    }
  }

  /** `usersData.find((u) => u.email === user.email)`: the first account with that e-mail. */
  function FindUserByEmail(users: seq<UserAccount>, email: string): (r: Option<UserAccount>)
    ensures r.None? <==> forall u :: u in users ==> u.email != email
    ensures r.Some? ==> exists i :: 0 <= i < |users| && users[i] == r.value && r.value.email == email
                                    && forall k :: 0 <= k < i ==> users[k].email != email
  {
    if users == [] then None
    else if users[0].email == email then Some(users[0])
    else
      var rest := FindUserByEmail(users[1..], email);
      assert forall u :: u in users[1..] ==> u in users;
      if rest.Some? then
        var i :| 0 <= i < |users[1..]| && users[1..][i] == rest.value && rest.value.email == email
                 && forall k :: 0 <= k < i ==> users[1..][k].email != email;
        assert users[i + 1] == rest.value && forall k :: 0 <= k < i + 1 ==> users[k].email != email;
        rest
      else rest
  }

  /** Keys never increase along the sequence. */
  ghost predicate SortedDesc<T>(s: seq<T>, key: T -> int) {
    forall i, j :: 0 <= i < j < |s| ==> key(s[i]) >= key(s[j])
  }

  /** Exchanging two neighbours keeps the same elements. */
  lemma SwapKeepsMultiset<T>(s: seq<T>, j: nat)
    requires 0 < j < |s|
    ensures multiset(s[j - 1 := s[j]][j := s[j - 1]]) == multiset(s)
  {
    var t := s[j - 1 := s[j]][j := s[j - 1]];
    assert s == s[..j - 1] + [s[j - 1], s[j]] + s[j + 1..];
    assert t == s[..j - 1] + [s[j], s[j - 1]] + s[j + 1..];
  }

  /**
   * Midway through an insertion step: `s[..i + 1]` is ordered except for
   * `s[j]`, which is still larger than everything after it.
   */
  ghost predicate Inserting<T>(s: seq<T>, i: nat, j: nat, key: T -> int) {
    j <= i < |s|
    && (forall p, q :: 0 <= p < q <= i && p != j && q != j ==> key(s[p]) >= key(s[q]))
    && (forall q :: j < q <= i ==> key(s[j]) > key(s[q]))
  }

  lemma InsertingStart<T>(s: seq<T>, i: nat, key: T -> int)
    requires i < |s| && SortedDesc(s[..i], key)
    ensures Inserting(s, i, i, key)
  {
    assert forall p :: 0 <= p < i ==> s[..i][p] == s[p];
  }

  lemma InsertingSwap<T>(s: seq<T>, i: nat, j: nat, key: T -> int)
    requires Inserting(s, i, j, key) && 0 < j && key(s[j - 1]) < key(s[j])
    ensures Inserting(s[j - 1 := s[j]][j := s[j - 1]], i, j - 1, key)
  {
  }

  lemma InsertingDone<T>(s: seq<T>, i: nat, j: nat, key: T -> int)
    requires Inserting(s, i, j, key) && (j == 0 || key(s[j - 1]) >= key(s[j]))
    ensures SortedDesc(s[..i + 1], key)
  {
    assert forall p :: 0 <= p <= i ==> s[..i + 1][p] == s[p];
  }

  /** One step of the sort: moves `a[i]` left past every smaller key, so `a[..i + 1]` is ordered. */
  method InsertDescending<T>(a: array<T>, i: nat, key: T -> int)
    requires i < a.Length
    requires SortedDesc(a[..i], key)
    modifies a
    ensures SortedDesc(a[..i + 1], key)
    ensures multiset(a[..]) == multiset(old(a[..]))
    ensures forall k :: i < k < a.Length ==> a[k] == old(a[k])
  {
    var j: nat := i;
    InsertingStart(a[..], i, key);
    while j > 0 && key(a[j - 1]) < key(a[j])
      invariant Inserting(a[..], i, j, key)
      invariant multiset(a[..]) == multiset(old(a[..]))
      invariant forall k :: i < k < a.Length ==> a[k] == old(a[k])
    {
      ghost var s := a[..];
      SwapKeepsMultiset(s, j);
      InsertingSwap(s, i, j, key);
      a[j - 1], a[j] := a[j], a[j - 1];
      assert a[..] == s[j - 1 := s[j]][j := s[j - 1]];
      j := j - 1;
    }
    InsertingDone(a[..], i, j, key);
  }

  /** `array.sort((a, b) => key(b) - key(a))`, in place: descending by key, the same elements. */
  method SortDescending<T>(a: array<T>, key: T -> int)
    modifies a
    ensures SortedDesc(a[..], key)
    ensures multiset(a[..]) == multiset(old(a[..]))
  {
    var i := 0;
    while i < a.Length
      invariant 0 <= i <= a.Length
      invariant SortedDesc(a[..i], key)
      invariant multiset(a[..]) == multiset(old(a[..]))
    {
      InsertDescending(a, i, key);
      i := i + 1;
    }
    assert a[..] == a[..a.Length];
  }

  /**
   * Sort a copy of `data` newest first and keep the first `n`: the result is
   * ordered, comes from `data`, and nothing left out is newer than anything kept.
   */
  method Latest<T>(data: seq<T>, key: T -> int, n: nat) returns (top: seq<T>)
    ensures |top| == Min(n, |data|)
    ensures SortedDesc(top, key)
    ensures multiset(top) <= multiset(data)
    ensures forall x, y :: x in top && y in multiset(data) - multiset(top) ==> key(y) <= key(x)
  {
    var a := new T[|data|](i requires 0 <= i < |data| => data[i]);
    assert a[..] == data;
    SortDescending(a, key);
    var s := a[..];
    var k := Min(n, |data|);
    top := s[..k];
    assert s == top + s[k..];
    assert multiset(s) == multiset(top) + multiset(s[k..]);
    forall x, y | x in top && y in multiset(data) - multiset(top)
      ensures key(y) <= key(x)
    {
      assert y in s[k..];
      var p :| 0 <= p < k && s[p] == x;
      var q :| k <= q < |s| && s[q] == y;
    }
  }

  /** Flights order by their day. */
  function FlightKey(f: Flight): int { Ordinal(f.flightDate) }

  /** Bookings order by when they were made. */
  function CreatedKey(b: Booking): int { b.createdAt }

  datatype Stats = Stats(
    currentUser: Option<UserAccount>,
    totalUsers: nat,
    totalFlights: nat,
    totalBookings: nat,
    totalEarn: int,
    newFlights: seq<Flight>,
    newBookings: seq<Booking>)

  /**
   * The `[user]` effect: nothing without a signed-in e-mail; otherwise every
   * figure from the three fetched collections.
   */
  method LoadStatistics(user: Option<AuthUser>, users: seq<UserAccount>, flights: seq<Flight>, bookings: seq<Booking>)
    returns (r: Option<Stats>)
    ensures r.Some? <==> EmailOf(user).Some? && EmailOf(user).value != ""
    ensures r.Some? ==> r.value.currentUser == FindUserByEmail(users, EmailOf(user).value)
    ensures r.Some? ==> r.value.totalUsers == |users| && r.value.totalFlights == |flights|
    ensures r.Some? ==> r.value.totalBookings == |ValidBookings(bookings)| && r.value.totalEarn == TotalEarn(bookings)
    ensures r.Some? ==> |r.value.newFlights| == Min(LatestCount, |flights|)
                        && SortedDesc(r.value.newFlights, FlightKey)
                        && multiset(r.value.newFlights) <= multiset(flights)
                        && forall x, y :: x in r.value.newFlights && y in multiset(flights) - multiset(r.value.newFlights) ==> FlightKey(y) <= FlightKey(x)
    ensures r.Some? ==> |r.value.newBookings| == Min(LatestCount, |ValidBookings(bookings)|)
                        && SortedDesc(r.value.newBookings, CreatedKey)
                        && (forall b :: b in r.value.newBookings ==> b in bookings && IsValidBooking(b))
                        && forall x, y :: x in r.value.newBookings && y in multiset(ValidBookings(bookings)) - multiset(r.value.newBookings) ==> CreatedKey(y) <= CreatedKey(x)
  {
    var email := EmailOf(user);
    if email.None? || email.value == "" {
      return None;
    }
    var valid := ValidBookings(bookings);
    var newFlights := Latest(flights, FlightKey, LatestCount);
    var newBookings := Latest(valid, CreatedKey, LatestCount);
    forall b | b in newBookings
      ensures b in valid
    {
      assert b in multiset(newBookings);
    }
    r := Some(Stats(FindUserByEmail(users, email.value), |users|, |flights|, |valid|, TotalEarn(bookings), newFlights, newBookings));
  }
}
