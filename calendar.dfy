/**
 * Calendar days, instants and times of day. Flight dates travel as the
 * full-date form of section 5.6 of RFC 3339 (`YYYY-MM-DD`); times of day as
 * `HH:mm`. Time zones are not modelled: a day is the same day everywhere.
 */
module Calendar {
  import opened Optional
  import opened Text

  datatype Date = Date(year: nat, month: nat, day: nat)

  predicate IsLeapYear(y: nat) {
    y % 4 == 0 && (y % 100 != 0 || y % 400 == 0)
  }

  function DaysInMonth(y: nat, m: nat): nat {
    if m == 2 then (if IsLeapYear(y) then 29 else 28)
    else if m == 4 || m == 6 || m == 9 || m == 11 then 30
    else 31
  }

  /** A day that a full-date can name: a four-digit year, a month 1..12 and a day within that month. */
  predicate ValidDate(d: Date) {
    d.year <= 9999 && 1 <= d.month <= 12 && 1 <= d.day <= DaysInMonth(d.year, d.month)
  }

  /** `moment(d).format("YYYY-MM-DD")`: zero-padded year, month and day. */
  function FormatFullDate(d: Date): (s: string)
    ensures |s| == 10 && s[4] == '-' && s[7] == '-'
    ensures AllDigits(s[..4]) && AllDigits(s[5..7]) && AllDigits(s[8..])
  {
    PadDigits(d.year, 4) + "-" + PadDigits(d.month, 2) + "-" + PadDigits(d.day, 2)
  }

  /** Reads a full-date; anything that is not one (the empty string included) gives None. */
  function ParseFullDate(s: string): (r: Option<Date>)
    ensures r.Some? ==> ValidDate(r.value)
  {
    if |s| == 10 && s[4] == '-' && s[7] == '-'
       && AllDigits(s[..4]) && AllDigits(s[5..7]) && AllDigits(s[8..])
    then
      var d := Date(DigitsValue(s[..4]), DigitsValue(s[5..7]), DigitsValue(s[8..]));
      if ValidDate(d) then Some(d) else None
    else None
  }

  /** Formatting a valid day and reading it back gives the same day. */
  lemma ParseFormatRoundTrip(d: Date)
    requires ValidDate(d)
    ensures ParseFullDate(FormatFullDate(d)) == Some(d)
  {
    var s := FormatFullDate(d);
    assert s[..4] == PadDigits(d.year, 4);
    assert s[5..7] == PadDigits(d.month, 2);
    assert s[8..] == PadDigits(d.day, 2);
    PadDigitsRoundTrip(d.year, 4);
    PadDigitsRoundTrip(d.month, 2);
    PadDigitsRoundTrip(d.day, 2);
  }

  /** Every string that parses is the canonical rendering of the day it names. */
  lemma FormatParseRoundTrip(s: string)
    requires ParseFullDate(s).Some?
    ensures FormatFullDate(ParseFullDate(s).value) == s
  {
    DigitsPadRoundTrip(s[..4]);
    DigitsPadRoundTrip(s[5..7]);
    DigitsPadRoundTrip(s[8..]);
    assert s == s[..4] + "-" + s[5..7] + "-" + s[8..];
  }

  /** Two valid days with the same full-date are the same day. */
  lemma FormatInjective(a: Date, b: Date)
    requires ValidDate(a) && ValidDate(b)
    requires FormatFullDate(a) == FormatFullDate(b)
    ensures a == b
  {
    ParseFormatRoundTrip(a);
    ParseFormatRoundTrip(b);
  }

  /** A number that orders days as the calendar does (not a count of days). */
  function Ordinal(d: Date): int {
    d.year * 416 + d.month * 32 + d.day
  }

  /** Calendar order: by year, then month, then day. */
  predicate EarlierDate(a: Date, b: Date) {
    a.year < b.year || (a.year == b.year && (a.month < b.month || (a.month == b.month && a.day < b.day)))
  }

  /** On valid days `Ordinal` is exactly calendar order, and it tells days apart. */
  lemma OrdinalIsCalendarOrder(a: Date, b: Date)
    requires ValidDate(a) && ValidDate(b)
    ensures Ordinal(a) < Ordinal(b) <==> EarlierDate(a, b)
    ensures Ordinal(a) == Ordinal(b) <==> a == b
  {
  }

  const MillisPerDay: nat := 86_400_000

  /** A moment in time: a day and the milliseconds elapsed since its start. */
  datatype Instant = Instant(date: Date, millis: nat)

  predicate ValidInstant(t: Instant) {
    ValidDate(t.date) && t.millis < MillisPerDay
  }

  /** `new Date("YYYY-MM-DD")`: the first moment of that day. */
  function StartOfDay(d: Date): Instant {
    Instant(d, 0)
  }

  /** `a >= b` on `Date` objects. */
  predicate AtOrAfter(a: Instant, b: Instant) {
    Ordinal(a.date) > Ordinal(b.date) || (Ordinal(a.date) == Ordinal(b.date) && a.millis >= b.millis)
  }

  /** A time of day as stored in `flightTime`. */
  datatype TimeOfDay = TimeOfDay(hour: nat, minute: nat)

  predicate ValidTime(t: TimeOfDay) {
    t.hour < 24 && t.minute < 60
  }

  /** The stored `HH:mm` text of a time of day. */
  function FormatTime(t: TimeOfDay): (s: string)
    ensures |s| == 5 && s[2] == ':'
  {
    PadDigits(t.hour, 2) + ":" + PadDigits(t.minute, 2)
  }
}
