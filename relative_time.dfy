/** The relative-time label `formatMessageTime` (app/api/chats/route.ts and
    app/api/dashboard/route.ts) and its verbatim copy `formatLastInteraction`
    (app/api/clients/route.ts): minutes under an hour, hours under a day,
    "Yesterday" under two days, otherwise the calendar date. */
module RelativeTime {
  import opened Wrappers
  import opened Text
  import opened DateUtil

  /** The label `formatMessageTime` picks: a count of minutes or hours, the
      word "Yesterday", or `toLocaleDateString()`, abstracted to the
      calendar day it names. */
  datatype TimeLabel = MinutesAgo(minutes: int) | HoursAgo(hours: int) | Yesterday | LocaleDate(day: int)

  /** `${n} ${unit}${n === 1 ? '' : 's'} ago`; `unit` carries its leading
      space (" min", " hour"). */
  function Ago(n: int, unit: string): (r: string)
    ensures |r| >= |unit| + 5
  {
    IntToString(n) + unit + (if n == 1 then "" else "s") + " ago"
  }

  /** The text of a label; a locale date has none in this model. "Yesterday"
      is the text of no other label. */
  function Render(l: TimeLabel): (r: Option<string>)
    ensures r.None? <==> l.LocaleDate?
    ensures r == Some("Yesterday") <==> l == Yesterday
  {
    match l
    case MinutesAgo(n) => AgoIsNotYesterday(n, " min"); Some(Ago(n, " min"))
    case HoursAgo(n) => AgoIsNotYesterday(n, " hour"); Some(Ago(n, " hour"))
    case Yesterday => Some("Yesterday")
    case LocaleDate(_) => None
  }

  function FormatMessageTime(date: Instant, now: Instant): (r: TimeLabel)
    ensures now - date < MsPerHour ==> r == MinutesAgo((now - date) / MsPerMinute)
    ensures MsPerHour <= now - date < MsPerDay ==> r == HoursAgo((now - date) / MsPerHour)
    ensures r == Yesterday <==> MsPerDay <= now - date < 2 * MsPerDay
    ensures r.LocaleDate? <==> now - date >= 2 * MsPerDay
    ensures r.LocaleDate? ==> r.day == Day(date)
  {
    var diff := now - date;
    if diff < MsPerHour then MinutesAgo(diff / MsPerMinute)
    else if diff < MsPerDay then HoursAgo(diff / MsPerHour)
    else if diff < 2 * MsPerDay then Yesterday
    else LocaleDate(Day(date))
  }

  /** The text reads "Yesterday" exactly when the message is between one
      and two days old. */
  lemma YesterdayTextIffSecondDay(date: Instant, now: Instant)
    ensures Render(FormatMessageTime(date, now)) == Some("Yesterday") <==> MsPerDay <= now - date < 2 * MsPerDay
  {
  }

  /** Every "… ago" label ends in " ago", which "Yesterday" does not. */
  lemma AgoIsNotYesterday(n: int, unit: string)
    ensures Ago(n, unit) != "Yesterday"
  {
    var r := Ago(n, unit);
    assert r[|r| - 4..] == " ago";
    assert "Yesterday"[5..] == "rday";
  }

  /** The plural "s" appears exactly when the count is not 1. */
  lemma SingularOnlyAtOne(n: int, unit: string)
    requires unit != [] && unit[|unit| - 1] != 's'
    ensures var r := Ago(n, unit); r[|r| - 5] == 's' <==> n != 1
  {
    var r := Ago(n, unit);
    if n == 1 {
      assert r == IntToString(n) + unit + " ago";
      assert r[|r| - 5] == unit[|unit| - 1];
    } else {
      assert r == IntToString(n) + unit + "s" + " ago";
    }
  }

  /** Within the last hour the count is a whole number of minutes in
      [0, 59]; within the last day a whole number of hours in [1, 23]. */
  lemma CountRanges(date: Instant, now: Instant)
    ensures 0 <= now - date < MsPerHour ==> 0 <= (now - date) / MsPerMinute <= 59
    ensures MsPerHour <= now - date < MsPerDay ==> 1 <= (now - date) / MsPerHour <= 23
  {
  }

  /** The text reads "1 min ago" exactly when the difference is in [1, 2)
      minutes. */
  lemma OneMinuteAgo(date: Instant, now: Instant)
    ensures Render(FormatMessageTime(date, now)) == Some("1 min ago") <==> MsPerMinute <= now - date < 2 * MsPerMinute
  {
    assert IntToString(1) == "1";
    assert Ago(1, " min") == "1" + " min" + "" + " ago" == "1 min ago";
    assert forall n :: n != 1 ==> |Ago(n, " min")| >= 10;
    assert forall n :: |Ago(n, " hour")| >= 10;
    assert "Yesterday"[0] != "1 min ago"[0];
  }

  /** "Yesterday" is about elapsed time, not the calendar: a message sent at
      23:00 the day before reads "2 hours ago" at 01:00. */
  lemma YesterdayIsElapsedTime(d: int)
    ensures var sent := d * MsPerDay + 23 * MsPerHour;
      var now := (d + 1) * MsPerDay + MsPerHour;
      Day(now) == Day(sent) + 1 && FormatMessageTime(sent, now) == HoursAgo(2)
      && Render(FormatMessageTime(sent, now)) == Some("2 hours ago")
  {
    var sent := d * MsPerDay + 23 * MsPerHour;
    var now := (d + 1) * MsPerDay + MsPerHour;
    assert now - sent == 2 * MsPerHour;
    assert (d * MsPerDay + 23 * MsPerHour) / MsPerDay == d;
    assert ((d + 1) * MsPerDay + MsPerHour) / MsPerDay == d + 1;
    assert IntToString(2) == "2";
    assert Ago(2, " hour") == "2" + " hour" + "s" + " ago" == "2 hours ago";
    assert Render(HoursAgo(2)) == Some(Ago(2, " hour"));
  }
}
