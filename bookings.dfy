/**
 * A booking's refund life-cycle as the booking pages read it: booked, then
 * `status: "refund"` once the user asks for a refund, then `refund: "yes"`
 * once the administrator approves it.
 */
module Bookings {
  import opened Optional
  import opened Seqs
  import opened Calendar
  import opened Records

  /** `booking.status === "refund"`. */
  predicate RefundRequested(b: Booking) {
    b.status == Some("refund")
  }

  /** `booking.refund === "yes"`. */
  predicate RefundApproved(b: Booking) {
    b.refund == Some("yes")
  }

  /** `booking.loginPerson === user?.email`; two missing values are equal too. */
  predicate BelongsTo(b: Booking, email: Option<string>) {
    b.loginPerson == email
  }

  /** All bookings made by this e-mail. */
  function OwnBookings(data: seq<Booking>, email: Option<string>): (r: seq<Booking>)
    ensures forall b :: b in r <==> b in data && BelongsTo(b, email)
  {
    Filter(data, b => BelongsTo(b, email))
  }

  datatype Stage = Booked | RefundPending | Refunded

  /** Where a booking stands; an approval without a request never happens through these pages. */
  function StageOf(b: Booking): (s: Stage)
    ensures s == Booked <==> !RefundRequested(b)
    ensures s == Refunded <==> RefundRequested(b) && RefundApproved(b)
  {
    if !RefundRequested(b) then Booked
    else if RefundApproved(b) then Refunded
    else RefundPending
  }

  /** Only a requested refund is ever approved. */
  predicate Consistent(b: Booking) {
    RefundApproved(b) ==> RefundRequested(b)
  }

  /** A posted booking request as the server stores it: no refund fields yet. */
  function Stored(req: BookingRequest, id: string, createdAt: int): (b: Booking)
    ensures b.id == id && b.createdAt == createdAt
    ensures b.flightNumber == Some(req.flightNumber)
    ensures b.departureAirport == req.departureAirport && b.arrivalAirport == req.arrivalAirport
    ensures b.flightDate == req.flightDate && b.flightTime == req.flightTime
    ensures b.seatCount == req.seatCount && b.totalCost == req.totalCost
    ensures b.user == req.user && b.loginPerson == req.loginPerson
    ensures StageOf(b) == Booked && Consistent(b)
  {
    Booking(id, Some(req.flightNumber), req.departureAirport, req.arrivalAirport, req.flightDate,
            req.flightTime, req.seatCount, req.totalCost, req.user, req.loginPerson, None, None, createdAt)
  }

  /** The server's handling of the user's refund request: the status becomes `refund`. */
  function RequestRefund(b: Booking): (r: Booking)
    ensures RefundRequested(r)
    ensures r.refund == b.refund && r.loginPerson == b.loginPerson && r.id == b.id
  {
    b.(status := Some("refund"))
  }

  /** The server's handling of `{ refund: "yes" }`: only that field changes. */
  function ApproveRefund(b: Booking): (r: Booking)
    ensures RefundApproved(r)
    ensures r.status == b.status && r.loginPerson == b.loginPerson && r.id == b.id
  {
    b.(refund := Some("yes"))
  }

  /** The life-cycle moves forward only, and keeps approvals behind requests. */
  lemma LifeCycleTransitions(b: Booking)
    ensures StageOf(b) == Booked && !RefundApproved(b) ==> StageOf(RequestRefund(b)) == RefundPending
    ensures StageOf(b) == RefundPending ==> StageOf(ApproveRefund(b)) == Refunded
    ensures StageOf(b) != Booked ==> StageOf(RequestRefund(b)) == StageOf(b)
    ensures StageOf(b) == Refunded ==> StageOf(ApproveRefund(b)) == Refunded
    ensures Consistent(b) ==> Consistent(RequestRefund(b))
    ensures RefundRequested(b) ==> Consistent(ApproveRefund(b))
    ensures ApproveRefund(ApproveRefund(b)) == ApproveRefund(b) && RequestRefund(RequestRefund(b)) == RequestRefund(b)
  {
  }

  /** The collection after the server applies `f` to the document(s) with `_id == id`. */
  function UpdateById(data: seq<Booking>, id: string, f: Booking -> Booking): (r: seq<Booking>)
    ensures |r| == |data|
    ensures forall i :: 0 <= i < |data| ==> r[i] == if data[i].id == id then f(data[i]) else data[i]
  {
    if data == [] then []
    else [if data[0].id == id then f(data[0]) else data[0]] + UpdateById(data[1..], id, f)
  }

  /** Every document of the updated collection is either untouched or the update of one with that id. */
  lemma UpdateByIdMembers(data: seq<Booking>, id: string, f: Booking -> Booking)
    ensures forall x :: x in UpdateById(data, id, f) ==> (x in data && x.id != id) || exists b :: b in data && b.id == id && x == f(b)
    ensures forall b :: b in data && b.id != id ==> b in UpdateById(data, id, f)
    ensures forall b :: b in data && b.id == id ==> f(b) in UpdateById(data, id, f)
  {
    var r := UpdateById(data, id, f);
    forall x | x in r
      ensures (x in data && x.id != id) || exists b :: b in data && b.id == id && x == f(b)
    {
      var i :| 0 <= i < |r| && r[i] == x;
      assert data[i] in data;
    }
    forall b | b in data
      ensures b.id != id ==> b in r
      ensures b.id == id ==> f(b) in r
    {
      var i :| 0 <= i < |data| && data[i] == b;
      assert r[i] in r;
    }
  }
}
