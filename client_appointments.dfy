/** The client's appointments page (app/appointments/page.tsx): the fetched
    bookings split into upcoming and past by the session's start instant,
    upcoming earliest first and past latest first, with status colours and
    the message / join actions. */
module ClientAppointments {
  import opened Wrappers
  import opened DateUtil
  import opened Collections
  import opened Sorting
  import opened Store
  import opened SessionTime
  import opened Text

  /** The start instant, or 0 for an Invalid Date; the sorts only see
      bookings whose start parsed. */
  function StartOrZero(b: Booking): (r: Instant)
    ensures SessionStart(b.date, b.startTime).Some? ==> r == SessionStart(b.date, b.startTime).value
  {
    var s := SessionStart(b.date, b.startTime);
    if s.Some? then s.value else 0
  }

  /** `aDateTime - bDateTime`: ascending by start. */
  function AscendingStart(b: Booking): Key {
    Key(0, StartOrZero(b), "")
  }

  /** `bDateTime - aDateTime`: descending by start. */
  function DescendingStart(b: Booking): Key {
    Key(0, -StartOrZero(b), "")
  }

  predicate IsUpcoming(now: Instant, b: Booking) {
    StartsAtOrAfter(b.date, b.startTime, now)
  }

  predicate IsPast(now: Instant, b: Booking) {
    StartedBefore(b.date, b.startTime, now)
  }

  /** A start that does not parse: in neither list. */
  predicate IsUnparsable(b: Booking) {
    SessionStart(b.date, b.startTime).None?
  }

  /** `upcomingBookings`: the sessions starting at or after now, earliest
      first. */
  function Upcoming(bookings: seq<Booking>, now: Instant): (r: seq<Booking>)
    ensures |r| == Count(bookings, b => IsUpcoming(now, b))
    ensures forall i :: 0 <= i < |r| ==> r[i] in bookings && IsUpcoming(now, r[i])
    ensures forall i :: 0 <= i < |bookings| && IsUpcoming(now, bookings[i]) ==> bookings[i] in r
    ensures forall i, j :: 0 <= i < j < |r| ==> StartOrZero(r[i]) <= StartOrZero(r[j])
  {
    SortedFilter(bookings, b => IsUpcoming(now, b), AscendingStart);
    var sorted := SortBy(Filter(bookings, b => IsUpcoming(now, b)), AscendingStart);
    AscendingOrdered(sorted);
    sorted
  }

  /** `pastBookings`: the sessions that started before now, latest first. */
  function Past(bookings: seq<Booking>, now: Instant): (r: seq<Booking>)
    ensures |r| == Count(bookings, b => IsPast(now, b))
    ensures forall i :: 0 <= i < |r| ==> r[i] in bookings && IsPast(now, r[i])
    ensures forall i :: 0 <= i < |bookings| && IsPast(now, bookings[i]) ==> bookings[i] in r
    ensures forall i, j :: 0 <= i < j < |r| ==> StartOrZero(r[i]) >= StartOrZero(r[j])
  {
    SortedFilter(bookings, b => IsPast(now, b), DescendingStart);
    var sorted := SortBy(Filter(bookings, b => IsPast(now, b)), DescendingStart);
    DescendingOrdered(sorted);
    sorted
  }

  lemma AscendingOrdered(s: seq<Booking>)
    requires SortedBy(s, AscendingStart)
    ensures forall i, j :: 0 <= i < j < |s| ==> StartOrZero(s[i]) <= StartOrZero(s[j])
  {
    forall i, j | 0 <= i < j < |s| ensures StartOrZero(s[i]) <= StartOrZero(s[j]) {
      assert KeyLe(AscendingStart(s[i]), AscendingStart(s[j]));
    }
  }

  lemma DescendingOrdered(s: seq<Booking>)
    requires SortedBy(s, DescendingStart)
    ensures forall i, j :: 0 <= i < j < |s| ==> StartOrZero(s[i]) >= StartOrZero(s[j])
  {
    forall i, j | 0 <= i < j < |s| ensures StartOrZero(s[i]) >= StartOrZero(s[j]) {
      assert KeyLe(DescendingStart(s[i]), DescendingStart(s[j]));
    }
  }

  /** A booking whose start parses is in exactly one list, whatever its
      status; one whose start does not parse is in neither. */
  lemma ExactlyOneList(bookings: seq<Booking>, now: Instant, b: Booking)
    requires b in bookings
    ensures !IsUnparsable(b) ==> (b in Upcoming(bookings, now) <==> b !in Past(bookings, now))
    ensures IsUnparsable(b) ==> b !in Upcoming(bookings, now) && b !in Past(bookings, now)
  {
    var k :| 0 <= k < |bookings| && bookings[k] == b;
    var up, past := Upcoming(bookings, now), Past(bookings, now);
    if b in up {
      var i :| 0 <= i < |up| && up[i] == b;
    }
    if b in past {
      var i :| 0 <= i < |past| && past[i] == b;
    }
  }

  /** The two tab counts, `upcomingBookings.length` and
      `pastBookings.length`, add up to the bookings whose start parses. */
  lemma {:induction false} TabCounts(bookings: seq<Booking>, now: Instant)
    ensures |Upcoming(bookings, now)| + |Past(bookings, now)| + Count(bookings, IsUnparsable) == |bookings|
  {
    ThreeWay(bookings, now);
  }

  lemma {:induction false} ThreeWay(bs: seq<Booking>, now: Instant)
    ensures Count(bs, b => IsUpcoming(now, b)) + Count(bs, b => IsPast(now, b)) + Count(bs, IsUnparsable) == |bs|
  {
    if bs != [] {
      ThreeWay(bs[1..], now);
    }
  }

  /** `getStatusColor`: one colour per known status, gray for anything
      else. */
  function StatusColor(status: string): (r: string)
    ensures status == "scheduled" ==> r == "bg-blue-100 text-blue-800"
    ensures status == "completed" ==> r == "bg-green-100 text-green-800"
    ensures status == "cancelled" ==> r == "bg-red-100 text-red-800"
    ensures r == "bg-gray-100 text-gray-800" <==> status != "scheduled" && status != "completed" && status != "cancelled"
  {
    match status
    case "scheduled" => "bg-blue-100 text-blue-800"
    case "completed" => "bg-green-100 text-green-800"
    case "cancelled" => "bg-red-100 text-red-800"
    case _ => "bg-gray-100 text-gray-800"
  }

  /** The three known statuses get three different colours. */
  lemma ColorsDistinct()
    ensures StatusColor("scheduled") != StatusColor("completed")
    ensures StatusColor("completed") != StatusColor("cancelled")
    ensures StatusColor("scheduled") != StatusColor("cancelled")
  {
  }

  /** The message and join buttons: shown when the stored date is not
      before now and the booking is scheduled. The test uses the stored
      date, not the session start. */
  predicate ShowActions(now: Instant, b: Booking) {
    b.date >= now && b.status == "scheduled"
  }

  /** A scheduled session stored at its day's last millisecond (as the
      booking POST stores it) that started two hours ago is listed under
      past, and still offers the actions. */
  lemma PastSessionShowsActions(b: Booking, now: Instant)
    requires b.status == "scheduled" && b.startTime == "09:00"
    requires b.date == EndOfDay(b.date) && now == StartOfDay(b.date) + 11 * MsPerHour
    ensures IsPast(now, b) && ShowActions(now, b)
  {
    assert WellFormedTime("09:00");
    WellFormedSessionStart(b.date, "09:00");
    assert HoursOf("09:00") == 9 && MinutesOf("09:00") == 0;
  }

  /** A scheduled session stored at midnight that starts later today is
      upcoming, yet offers no actions once the day has begun. */
  lemma UpcomingSessionHidesActions(b: Booking, now: Instant)
    requires b.status == "scheduled" && b.startTime == "18:30"
    requires b.date == StartOfDay(b.date) && now == b.date + MsPerHour
    ensures IsUpcoming(now, b) && !ShowActions(now, b)
  {
    assert WellFormedTime("18:30");
    WellFormedSessionStart(b.date, "18:30");
    assert HoursOf("18:30") == 18 && MinutesOf("18:30") == 30;
  }
}
