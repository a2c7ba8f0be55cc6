/**
 * The flight page: its copy of the 12-hour time display, which pads the
 * minute text rather than testing the minute number, and the booking it posts.
 */
module FlightDetail {
  import opened Optional
  import opened Text
  import opened Calendar
  import opened Records
  import opened Clock

  /**
   * This page's `convertTo12HourFormat` after `time.split(':')`: `hour` is
   * `parseInt` of the text before the colon and `minuteText` the text after it.
   */
  function DetailTo12Hour(hour: nat, minuteText: string): (r: string)
    ensures |r| >= 7
    ensures r[|r| - 2..] == "PM" <==> hour >= 12
    ensures r[|r| - 2..] == "AM" <==> hour < 12
  {
    NatToString(Hour12(hour)) + ":" + PadStart(minuteText, 2, '0') + " " + PeriodText(PeriodOf(hour))
  }

  /** On a two-digit minute text this copy prints what the admin pages' copies print. */
  lemma PaddedMinuteAgrees(hour: nat, minute: nat)
    requires minute < 60
    ensures DetailTo12Hour(hour, PadDigits(minute, 2)) == To12HourText(TimeOfDay(hour, minute))
  {
    TwoDigitRendering(minute);
  }

  /** An unpadded minute text such as `5` is padded to `05`, as the admin copies do by number. */
  lemma UnpaddedMinuteAgrees(hour: nat, minute: nat)
    requires minute < 60
    ensures DetailTo12Hour(hour, NatToString(minute)) == To12HourText(TimeOfDay(hour, minute))
  {
    TwoDigitRendering(minute);
    if minute < 10 {
      assert PadStart(NatToString(minute), 2, '0') == "0" + NatToString(minute);
    } else {
      assert PadStart(NatToString(minute), 2, '0') == NatToString(minute);
    }
  }

  /**
   * A stored `HH:mm` flight time, split at the colon, is shown as `h:mm AM|PM`
   * and the display reads back to the stored time.
   */
  lemma StoredTimeDisplay(t: TimeOfDay)
    requires ValidTime(t)
    ensures var s := FormatTime(t);
            AllDigits(s[..2]) && DigitsValue(s[..2]) == t.hour
            && DetailTo12Hour(DigitsValue(s[..2]), s[3..]) == To12HourText(t)
            && Parse12HourText(DetailTo12Hour(DigitsValue(s[..2]), s[3..])) == Some(t)
  {
    var s := FormatTime(t);
    assert s[..2] == PadDigits(t.hour, 2);
    assert s[3..] == PadDigits(t.minute, 2);
    PadDigitsRoundTrip(t.hour, 2);
    PaddedMinuteAgrees(t.hour, t.minute);
    To12HourTextRoundTrip(t);
  }

  /** `useState(1)`: the seat count a fresh booking form starts from. */
  const DefaultSeatCount: nat := 1

  /** `seatCount * flight.price`, also what the modal's read-only total shows. */
  function TotalCost(seatCount: nat, flight: Flight): int {
    seatCount * flight.price
  }

  /**
   * `bookingData`: the flight's identifying fields copied unchanged, the typed
   * seat count, transaction and contact, the total, and the signed-in user's
   * e-mail and stored image.
   */
  function BookingData(flightId: string, flight: Flight, seatCount: nat, transactionId: string,
                       contact: Contact, user: Option<AuthUser>, signImage: Option<string>): (r: BookingRequest)
    ensures r.flightId == flightId
    ensures r.flightNumber == flight.flightNumber
    ensures r.departureAirport == flight.departureAirport && r.arrivalAirport == flight.arrivalAirport
    ensures r.flightDate == flight.flightDate && r.flightTime == flight.flightTime
    ensures r.seatCount == seatCount && r.transactionId == transactionId && r.user == contact
    ensures r.totalCost == TotalCost(seatCount, flight) == seatCount * flight.price
    ensures r.loginPerson == EmailOf(user) && r.loginUserImage == signImage
  {
    BookingRequest(flightId, flight.flightNumber, flight.departureAirport, flight.arrivalAirport,
                   flight.flightDate, flight.flightTime, seatCount, TotalCost(seatCount, flight),
                   transactionId, contact, EmailOf(user), signImage)
  }
}
