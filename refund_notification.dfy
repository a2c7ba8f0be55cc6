/** The user's "Refund Notifications" page: their bookings whose refund was approved. */
module RefundNotification {
  import opened Optional
  import opened Seqs
  import opened Records
  import opened Bookings

  /** The page's filter: booked by this e-mail, `refund` is `yes`. */
  predicate IsApprovedRefund(b: Booking, email: Option<string>) {
    BelongsTo(b, email) && RefundApproved(b)
  }

  function ApprovedRefunds(data: seq<Booking>, email: Option<string>): (r: seq<Booking>)
    ensures |r| <= |data|
    ensures forall b :: b in r <==> b in data && BelongsTo(b, email) && RefundApproved(b)
  {
    Filter(data, b => IsApprovedRefund(b, email))
  }

  /** The refunds keep the fetched order. */
  lemma ApprovedRefundsKeepOrder(data: seq<Booking>, email: Option<string>)
    ensures IsSubsequence(ApprovedRefunds(data, email), data)
  {
    FilterIsSubsequence(data, b => IsApprovedRefund(b, email));
  }

  /** Each approved refund is listed as often as fetched, so `Total Refunds` counts exactly them. */
  lemma ApprovedRefundsExact(data: seq<Booking>, email: Option<string>, b: Booking)
    ensures multiset(ApprovedRefunds(data, email))[b] == if IsApprovedRefund(b, email) then multiset(data)[b] else 0
  {
    FilterMultiplicity(data, x => IsApprovedRefund(x, email), b);
  }
}
