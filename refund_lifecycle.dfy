/**
 * How the four booking lists move together as a refund goes through: the
 * user's notifications, the administrator's queue, the user's refunds, and
 * the bookings the dashboard counts.
 */
module RefundLifecycle {
  import opened Optional
  import opened Seqs
  import opened Records
  import opened Bookings
  import opened BookingNotification
  import opened RefundNotification
  import opened BookingRefund
  import opened UserStatistic

  /** A user's bookings split between their notifications list and the refund queue, with none lost or shared. */
  lemma OwnBookingsSplit(data: seq<Booking>, email: Option<string>)
    ensures |LiveBookings(data, email)| + |RefundQueue(OwnBookings(data, email))| == |OwnBookings(data, email)|
  {
    var own := OwnBookings(data, email);
    FilterPartition(own, RefundRequested);
    FilterTwice(data, b => BelongsTo(b, email), Not(RefundRequested));
    FilterCongruent(data, And(b => BelongsTo(b, email), Not(RefundRequested)), b => IsLive(b, email));
  }

  /** With consistent refund fields, each booking is either counted on the dashboard or in the refund queue. */
  lemma DashboardOrQueue(data: seq<Booking>)
    requires forall b :: b in data ==> Consistent(b)
    ensures ValidBookings(data) == Filter(data, Not(RefundRequested))
    ensures |ValidBookings(data)| + |RefundQueue(data)| == |data|
  {
    FilterCongruent(data, IsValidBooking, Not(RefundRequested));
    FilterPartition(data, RefundRequested);
  }

  /** With consistent refund fields, the dashboard's bookings of one user are that user's notifications list. */
  lemma DashboardAgreesWithNotifications(data: seq<Booking>, email: Option<string>)
    requires forall b :: b in data ==> Consistent(b)
    ensures Filter(ValidBookings(data), b => BelongsTo(b, email)) == LiveBookings(data, email)
  {
    FilterTwice(data, IsValidBooking, b => BelongsTo(b, email));
    FilterCongruent(data, And(IsValidBooking, b => BelongsTo(b, email)), b => IsLive(b, email));
  }

  /**
   * A confirmed refund request takes the booking off the user's list and puts
   * it, labelled Pending with the approve button, in the administrator's queue.
   */
  lemma RequestMovesToQueue(data: seq<Booking>, email: Option<string>, b: Booking)
    requires b in LiveBookings(data, email) && Consistent(b)
    ensures var after := UpdateById(data, b.id, RequestRefund);
            && RequestRefund(b) in RefundQueue(after)
            && (forall x :: x in LiveBookings(after, email) ==> x.id != b.id)
            && StatusLabel(RequestRefund(b)) == "Pending" && ApproveOffered(RequestRefund(b))
            && RequestRefund(b) !in ValidBookings(after)
  {
    UpdateByIdMembers(data, b.id, RequestRefund);
    RefundLeavesList(data, email, b.id);
  }

  /**
   * An approval leaves the booking in the queue, now labelled Refunded with no
   * button, lists it among the owner's refunds, and keeps it out of the dashboard.
   */
  lemma ApprovalCompletesRefund(data: seq<Booking>, b: Booking)
    requires b in RefundQueue(data)
    ensures var after := UpdateById(data, b.id, ApproveRefund);
            && ApproveRefund(b) in RefundQueue(after)
            && StatusLabel(ApproveRefund(b)) == "Refunded" && !ApproveOffered(ApproveRefund(b))
            && ApproveRefund(b) in ApprovedRefunds(after, b.loginPerson)
            && ApproveRefund(b) !in ValidBookings(after)
            && StageOf(ApproveRefund(b)) == Refunded
  {
    UpdateByIdMembers(data, b.id, ApproveRefund);
  }

  /** A consistent booking is never on both the notifications list and the refunds list. */
  lemma RefundsAreNotLive(data: seq<Booking>, email: Option<string>)
    requires forall b :: b in data ==> Consistent(b)
    ensures forall b :: b in ApprovedRefunds(data, email) ==> b !in LiveBookings(data, email) && b in RefundQueue(data)
  {
  }
}
