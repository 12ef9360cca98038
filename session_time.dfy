/** The instant a booking's session starts, as the client appointments page
    (app/appointments/page.tsx) and the dashboard (app/api/dashboard/route.ts)
    compute it: `new Date(y, m, d, parseInt(hh), parseInt(mm))` from the
    booking's calendar day and its "HH:MM" start. A start that does not
    parse gives an Invalid Date, which every comparison treats as false. */
module SessionTime {
  import opened Wrappers
  import opened Text
  import opened DateUtil

  /** None is the Invalid Date. Hours and minutes past their range roll
      over, as the Date constructor does. */
  function SessionStart(date: Instant, startTime: string): (r: Option<Instant>)
    ensures r.Some? ==> r.value >= StartOfDay(date)
  {
    var parts := Split(startTime, ':');
    if |parts| < 2 then None
    else match (ParseInt(parts[0]), ParseInt(parts[1]))
      case (Some(h), Some(m)) => Some(StartOfDay(date) + h * MsPerHour + m * MsPerMinute)
      case _ => None
  }

  /** The hours and minutes an "HH:MM" string spells. */
  function HoursOf(t: string): nat
    requires WellFormedTime(t)
  {
    DigitValue(t[0]) * 10 + DigitValue(t[1])
  }

  function MinutesOf(t: string): nat
    requires WellFormedTime(t)
  {
    DigitValue(t[3]) * 10 + DigitValue(t[4])
  }

  lemma TwoDigits(s: string)
    requires |s| == 2 && IsDigit(s[0]) && IsDigit(s[1])
    ensures ParseInt(s) == Some(DigitValue(s[0]) * 10 + DigitValue(s[1]))
  {
    PrefixLengthOfDigits(s, []);
    assert s + [] == s;
    assert DigitPrefixLength(s) == 2;
    assert s[..2] == s;
    assert s[..|s| - 1] == [s[0]];
    assert DigitsValue([s[0]]) == DigitValue(s[0]) by {
      assert [s[0]][..0] == [];
    }
    assert DigitsValue(s) == DigitsValue([s[0]]) * 10 + DigitValue(s[1]);
  }

  /** A well-formed start gives the booking day's midnight plus its hours
      and minutes. */
  lemma WellFormedSessionStart(date: Instant, t: string)
    requires WellFormedTime(t)
    ensures SessionStart(date, t) == Some(StartOfDay(date) + HoursOf(t) * MsPerHour + MinutesOf(t) * MsPerMinute)
  {
    assert t == t[..2] + [':'] + t[3..];
    SplitPair(t[..2], ':', t[3..]);
    TwoDigits(t[..2]);
    TwoDigits(t[3..]);
  }

  /** A real clock time (hours below 24, minutes below 60) starts on the
      booking's own calendar day. */
  lemma ClockTimeSameDay(date: Instant, t: string)
    requires WellFormedTime(t) && HoursOf(t) < 24 && MinutesOf(t) < 60
    ensures SessionStart(date, t).Some? && SameDay(SessionStart(date, t).value, date)
  {
    WellFormedSessionStart(date, t);
    var s := StartOfDay(date) + HoursOf(t) * MsPerHour + MinutesOf(t) * MsPerMinute;
    assert s < StartOfDay(date) + MsPerDay;
    DayOfWindow(s, StartOfDay(date));
  }

  /** A start without a colon never parses. */
  lemma NoColonInvalid(date: Instant, t: string)
    requires ':' !in t
    ensures SessionStart(date, t).None?
  {
    SplitNoSeparator(t, ':');
  }

  /** Whether the session has started by `now` (`bookingDateTime >= now`
      is false for an Invalid Date, and so is `<`). */
  predicate StartsAtOrAfter(date: Instant, startTime: string, now: Instant) {
    SessionStart(date, startTime).Some? && SessionStart(date, startTime).value >= now
  }

  predicate StartedBefore(date: Instant, startTime: string, now: Instant) {
    SessionStart(date, startTime).Some? && SessionStart(date, startTime).value < now
  }
}
