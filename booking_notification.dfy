/** The user's "Booking Notifications" page: their bookings with no refund requested. */
module BookingNotification {
  import opened Optional
  import opened Seqs
  import opened Records
  import opened JsValues
  import opened Bookings

  /** The page's filter: booked by this e-mail, status not `refund`. */
  predicate IsLive(b: Booking, email: Option<string>) {
    BelongsTo(b, email) && !RefundRequested(b)
  }

  function LiveBookings(data: seq<Booking>, email: Option<string>): (r: seq<Booking>)
    ensures |r| <= |data|
    ensures forall b :: b in r <==> b in data && BelongsTo(b, email) && !RefundRequested(b)
  {
    Filter(data, b => IsLive(b, email))
  }

  /** The list is the fetched list with the other bookings deleted, in fetch order. */
  lemma LiveBookingsKeepOrder(data: seq<Booking>, email: Option<string>)
    ensures IsSubsequence(LiveBookings(data, email), data)
  {
    FilterIsSubsequence(data, x => IsLive(x, email));
  }

  /** Each live booking is listed as often as it was fetched, so `Total Bookings` counts exactly the live ones. */
  lemma LiveBookingsExact(data: seq<Booking>, email: Option<string>, b: Booking)
    ensures multiset(LiveBookings(data, email))[b] == if IsLive(b, email) then multiset(data)[b] else 0
  {
    FilterMultiplicity(data, x => IsLive(x, email), b);
  }

  const RefundPath := "/flight-bookings/"

  /** `handleRefund`: after a confirmation, a body-less `PUT` for the booking; otherwise nothing. */
  function RefundRequestFor(confirmed: bool, bookingId: string): (r: Option<PutRequest>)
    ensures r.Some? <==> confirmed
    ensures r.Some? ==> r.value.path == RefundPath + bookingId && r.value.body.None?
  {
    if confirmed then Some(PutRequest(RefundPath + bookingId, None)) else None
  }

  /**
   * After the server marks a booking `refund` and the list is fetched again,
   * that booking is gone from the list and every other listed booking stays.
   */
  lemma RefundLeavesList(data: seq<Booking>, email: Option<string>, id: string)
    ensures forall x :: x in LiveBookings(UpdateById(data, id, RequestRefund), email) ==> x.id != id
    ensures forall x :: x in LiveBookings(data, email) && x.id != id ==> x in LiveBookings(UpdateById(data, id, RequestRefund), email)
  {
    UpdateByIdMembers(data, id, RequestRefund);
  }
}
