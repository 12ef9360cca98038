/** lib/utils.ts: the day label `formatDate` (the key every day-matching
    lookup compares) and the calendar's `disablePastDates`, with the clock
    arithmetic the rest of the model shares.

    An Instant is a count of milliseconds in local time; the process's time
    zone and daylight-saving shifts are not modelled, so every day is
    MsPerDay long. "now" is always a parameter. */
module DateUtil {

  type Instant = int

  const MsPerMinute: int := 60_000
  const MsPerHour: int := 3_600_000
  const MsPerDay: int := 86_400_000

  /** The calendar day an instant falls on (days since the epoch). */
  function Day(t: Instant): int {
    t / MsPerDay
  }

  /** `d.setHours(0, 0, 0, 0)`. */
  function StartOfDay(t: Instant): (r: Instant)
    ensures r <= t < r + MsPerDay
    ensures Day(r) == Day(t)
  {
    Day(t) * MsPerDay
  }

  /** `d.setHours(23, 59, 59, 999)`. */
  function EndOfDay(t: Instant): (r: Instant)
    ensures t <= r && Day(r) == Day(t) && r == StartOfDay(t) + MsPerDay - 1
  {
    StartOfDay(t) + MsPerDay - 1
  }

  /** `d.getHours()`. */
  function HourOf(t: Instant): (h: nat)
    ensures h < 24
    ensures StartOfDay(t) + h * MsPerHour <= t < StartOfDay(t) + (h + 1) * MsPerHour
  {
    (t % MsPerDay) / MsPerHour
  }

  /** `a.toDateString() === b.toDateString()`. */
  predicate SameDay(a: Instant, b: Instant) {
    Day(a) == Day(b)
  }

  lemma DayOfWindow(t: Instant, start: Instant)
    requires start % MsPerDay == 0
    ensures Day(t) == Day(start) <==> start <= t < start + MsPerDay
  {
    var d := start / MsPerDay;
    assert start == d * MsPerDay;
    if start <= t < start + MsPerDay {
      assert Day(t) == d;
    }
  }

  /** The label `formatDate` returns: "Today", "Tomorrow", or the full date
      ("MMMM d, yyyy"), here an injective label on calendar days. */
  datatype DayLabel = Today | Tomorrow | Calendar(day: int)

  function FormatDate(t: Instant, now: Instant): (r: DayLabel)
    ensures r == Today <==> StartOfDay(now) <= t < StartOfDay(now) + MsPerDay
    ensures r == Tomorrow <==> StartOfDay(now) + MsPerDay <= t < StartOfDay(now) + 2 * MsPerDay
    ensures r.Calendar? ==> t < StartOfDay(now) || StartOfDay(now) + 2 * MsPerDay <= t
  {
    DayOfWindow(t, StartOfDay(now));
    DayOfWindow(t, StartOfDay(now) + MsPerDay);
    if Day(t) == Day(now) then Today
    else if Day(t) == Day(now) + 1 then Tomorrow
    else Calendar(Day(t))
  }

  /** Two instants get the same label exactly when they fall on the same
      calendar day, whatever "now" is: this is why label comparison is
      day matching. */
  lemma LabelsMatchIffSameDay(a: Instant, b: Instant, now: Instant)
    ensures FormatDate(a, now) == FormatDate(b, now) <==> SameDay(a, b)
  {
  }

  /** A full-date label never reads "Today" or "Tomorrow", and names the
      instant's own day. */
  lemma CalendarLabelIsOtherDay(t: Instant, now: Instant)
    requires Day(t) != Day(now) && Day(t) != Day(now) + 1
    ensures FormatDate(t, now) == Calendar(Day(t))
  {
  }

  /** `disablePastDates`: a date is disabled when it is before today's
      midnight. */
  predicate DisablePastDates(d: Instant, now: Instant) {
    d < StartOfDay(now)
  }

  /** Every instant of today or later is selectable; every instant of an
      earlier day is disabled. */
  lemma DisabledIffEarlierDay(d: Instant, now: Instant)
    ensures DisablePastDates(d, now) <==> Day(d) < Day(now)
  {
    DayOfWindow(d, StartOfDay(now));
    if Day(d) < Day(now) {
      assert d < StartOfDay(d) + MsPerDay;
      assert StartOfDay(d) + MsPerDay <= StartOfDay(now) by {
        assert StartOfDay(d) == Day(d) * MsPerDay && StartOfDay(now) == Day(now) * MsPerDay;
      }
    } else {
      assert StartOfDay(now) <= StartOfDay(d) by {
        assert StartOfDay(d) == Day(d) * MsPerDay && StartOfDay(now) == Day(now) * MsPerDay;
      }
    }
  }

  lemma DisabledMonotone(d1: Instant, d2: Instant, now: Instant)
    requires DisablePastDates(d2, now) && d1 <= d2
    ensures DisablePastDates(d1, now)
  {
  }
}
