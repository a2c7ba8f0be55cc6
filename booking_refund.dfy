/** The administrator's refund queue: every booking with a refund requested, and its approval. */
module BookingRefund {
  import opened Optional
  import opened Seqs
  import opened Records
  import opened JsValues
  import opened Bookings

  /** `data.filter(flight => flight.status === "refund")`. */
  function RefundQueue(data: seq<Booking>): (r: seq<Booking>)
    ensures |r| <= |data|
    ensures forall b :: b in r <==> b in data && RefundRequested(b)
  {
    Filter(data, RefundRequested)
  }

  /** The queue keeps the fetched order and each requested booking's multiplicity. */
  lemma RefundQueueExact(data: seq<Booking>, b: Booking)
    ensures IsSubsequence(RefundQueue(data), data)
    ensures multiset(RefundQueue(data))[b] == if RefundRequested(b) then multiset(data)[b] else 0
  {
    FilterIsSubsequence(data, RefundRequested);
    FilterMultiplicity(data, RefundRequested, b);
  }

  /** The status column. */
  function StatusLabel(b: Booking): (s: string)
    ensures s == "Refunded" <==> RefundApproved(b)
    ensures s == "Pending" <==> !RefundApproved(b)
  {
    if b.refund == Some("yes") then "Refunded" else "Pending"
  }

  /** The Approve Refund button is rendered only while the refund is not yet `yes`. */
  predicate ApproveOffered(b: Booking) {
    b.refund != Some("yes")
  }

  /** Exactly the rows labelled Pending carry the button. */
  lemma ButtonOnPendingRows(b: Booking)
    ensures ApproveOffered(b) <==> StatusLabel(b) == "Pending"
    ensures ApproveOffered(b) <==> !RefundApproved(b)
  {
  }

  const ApprovalPath := "/flights-bookings/"

  /** The approval body `{ refund: "yes" }`. */
  const ApprovalBody: Record := map["refund" := Str("yes")]

  /** `handleRefundApproval`: after a confirmation, one `PUT` of `{ refund: "yes" }` for the id; otherwise nothing. */
  function ApprovalRequest(confirmed: bool, id: string): (r: Option<PutRequest>)
    ensures r.Some? <==> confirmed
    ensures r.Some? ==> r.value.path == ApprovalPath + id && r.value.body == Some(ApprovalBody)
    ensures r.Some? ==> r.value.body.value.Keys == {"refund"} && r.value.body.value["refund"] == Str("yes")
  {
    if confirmed then Some(PutRequest(ApprovalPath + id, Some(ApprovalBody))) else None
  }
}
