/**
 * `convertTo12HourFormat`: the 24-hour `HH:mm` flight time shown as
 * `h:mm AM|PM`. The two admin pages carry identical copies; the flight page's
 * copy pads the minute text instead (module FlightDetail).
 */
module Clock {
  import opened Optional
  import opened Text
  import opened Calendar

  datatype Period = AM | PM

  /** `h >= 12 ? 'PM' : 'AM'`. */
  function PeriodOf(h: nat): Period {
    if h >= 12 then PM else AM
  }

  function PeriodText(p: Period): (s: string)
    ensures |s| == 2
  {
    match p
    case AM => "AM"
    case PM => "PM"
  }

  /** `h % 12 === 0 ? 12 : h % 12`: the hour on a 12-hour dial. */
  function Hour12(h: nat): (r: nat)
    ensures 1 <= r <= 12
    ensures r % 12 == h % 12
  {
    if h % 12 == 0 then 12 else h % 12
  }

  /** The 24-hour hour that a 12-hour reading stands for. */
  function Hour24(hour12: nat, p: Period): nat {
    hour12 % 12 + (if p == PM then 12 else 0)
  }

  /** A 24-hour time is recovered from its 12-hour hour and period. */
  lemma TwelveHourRoundTrip(h: nat)
    requires h < 24
    ensures Hour24(Hour12(h), PeriodOf(h)) == h
  {
  }

  /** Every 12-hour reading comes from exactly one 24-hour hour. */
  lemma TwentyFourHourRoundTrip(hour12: nat, p: Period)
    requires 1 <= hour12 <= 12
    ensures Hour24(hour12, p) < 24
    ensures Hour12(Hour24(hour12, p)) == hour12 && PeriodOf(Hour24(hour12, p)) == p
  {
  }

  /** `m < 10 ? `0${m}` : m`. */
  function MinuteText(m: nat): string {
    if m < 10 then "0" + NatToString(m) else NatToString(m)
  }

  /** The admin pages' `convertTo12HourFormat`. */
  function To12HourText(t: TimeOfDay): string {
    NatToString(Hour12(t.hour)) + ":" + MinuteText(t.minute) + " " + PeriodText(PeriodOf(t.hour))
  }

  /** Reads `h:mm AM|PM` back into a 24-hour time; None for any other text. */
  function Parse12HourText(s: string): Option<TimeOfDay> {
    if |s| >= 7 && s[|s| - 6] == ':' && s[|s| - 3] == ' '
       && AllDigits(s[..|s| - 6]) && AllDigits(s[|s| - 5..|s| - 3])
       && (s[|s| - 2..] == "AM" || s[|s| - 2..] == "PM")
    then
      var hour12 := DigitsValue(s[..|s| - 6]);
      var p := if s[|s| - 2..] == "PM" then PM else AM;
      if 1 <= hour12 <= 12 then Some(TimeOfDay(Hour24(hour12, p), DigitsValue(s[|s| - 5..|s| - 3])))
      else None
    else None
  }

  /** The pieces of `h:mm PP` sit at fixed distances from the end of the text. */
  lemma TwelveHourPieces(hour: string, mm: string, period: string)
    requires |mm| == 2 && |period| == 2
    ensures var s := hour + ":" + mm + " " + period;
      |s| == |hour| + 6 && s[|s| - 6] == ':' && s[|s| - 3] == ' '
      && s[..|s| - 6] == hour && s[|s| - 5..|s| - 3] == mm && s[|s| - 2..] == period
  {
    var s := hour + ":" + mm + " " + period;
    assert s == hour + (":" + mm + " " + period);
    assert s[..|hour|] == hour;
  }

  /** Any `h:mm PP` text with a 1..12 hour reads back as the hour and minute it shows. */
  lemma ParseTwelveHour(hour: string, mm: string, p: Period)
    requires AllDigits(hour) && AllDigits(mm) && |mm| == 2
    requires 1 <= DigitsValue(hour) <= 12
    ensures Parse12HourText(hour + ":" + mm + " " + PeriodText(p))
            == Some(TimeOfDay(Hour24(DigitsValue(hour), p), DigitsValue(mm)))
  {
    TwelveHourPieces(hour, mm, PeriodText(p));
  }

  /**
   * The display has the shape `h:mm AM|PM` (a 1..12 hour, two minute digits,
   * a space, the period) and loses nothing: reading it back gives the time.
   */
  lemma To12HourTextRoundTrip(t: TimeOfDay)
    requires ValidTime(t)
    ensures Parse12HourText(To12HourText(t)) == Some(t)
  {
    var hour, mm := NatToString(Hour12(t.hour)), MinuteText(t.minute);
    TwoDigitRendering(t.minute);
    assert mm == PadDigits(t.minute, 2);
    NatToStringRoundTrip(Hour12(t.hour));
    PadDigitsRoundTrip(t.minute, 2);
    ParseTwelveHour(hour, mm, PeriodOf(t.hour));
    TwelveHourRoundTrip(t.hour);
  }

  /** Midnight is `12:mm AM`; noon and every later hour are `PM`. */
  lemma MidnightAndAfternoon(t: TimeOfDay)
    ensures t.hour == 0 ==> To12HourText(t) == "12:" + MinuteText(t.minute) + " AM"
    ensures t.hour == 12 ==> To12HourText(t) == "12:" + MinuteText(t.minute) + " PM"
    ensures 13 <= t.hour < 24 ==> To12HourText(t) == NatToString(t.hour - 12) + ":" + MinuteText(t.minute) + " PM"
  {
    assert NatToString(12) == "12" by {
      assert NatToString(12) == NatToString(1) + [DigitChar(2)];
    }
  }
}
