/**
 * The profile's "Booking History": the same selector as the notifications
 * page, fetched only once a user is signed in.
 */
module BookingHistory {
  import opened Optional
  import opened Seqs
  import opened Records
  import opened Bookings
  import opened BookingNotification

  /**
   * The `[user]` effect: no fetch without a user; with one, the fetched list
   * run through the page's selector for `user?.email`.
   */
  function OnUserChange<T>(user: Option<AuthUser>, data: seq<Booking>, select: (seq<Booking>, Option<string>) -> T): (r: Option<T>)
    ensures r.None? <==> user.None?
    ensures r.Some? ==> r.value == select(data, user.value.email)
  {
    match user
    case None => None
    case Some(u) => Some(select(data, EmailOf(user)))
  }

  /** The history shows exactly the bookings of the signed-in user's e-mail that have no refund requested. */
  function History(user: Option<AuthUser>, data: seq<Booking>): (r: Option<seq<Booking>>)
    ensures r.None? <==> user.None?
    ensures r.Some? ==> forall b :: b in r.value <==> b in data && BelongsTo(b, user.value.email) && !RefundRequested(b)
  {
    OnUserChange(user, data, LiveBookings)
  }

  /** The history and the notifications page list the same bookings in the same order. */
  lemma HistoryIsNotificationList(user: AuthUser, data: seq<Booking>)
    ensures History(Some(user), data) == Some(LiveBookings(data, user.email))
    ensures IsSubsequence(History(Some(user), data).value, data)
  {
    LiveBookingsKeepOrder(data, user.email);
  }
}
