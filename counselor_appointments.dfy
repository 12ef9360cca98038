/** The counselor's appointments page (app/dashboard/appointments/page.tsx):
    the fetched bookings split into upcoming and past by status and stored
    date, and the local list update after a status change. */
module CounselorAppointments {
  import opened Wrappers
  import opened DateUtil
  import opened Collections
  import opened Store

  /** `status === "scheduled" && new Date(date) > new Date()`. */
  predicate IsUpcoming(now: Instant, b: Booking) {
    b.status == "scheduled" && b.date > now
  }

  /** `status !== "scheduled" || new Date(date) <= new Date()`. */
  predicate IsPast(now: Instant, b: Booking) {
    b.status != "scheduled" || b.date <= now
  }

  function Upcoming(bookings: seq<Booking>, now: Instant): (r: seq<Booking>)
    ensures IsSubsequence(r, bookings)
    ensures forall i :: 0 <= i < |r| ==> IsUpcoming(now, r[i])
    ensures forall i :: 0 <= i < |bookings| && IsUpcoming(now, bookings[i]) ==> bookings[i] in r
  {
    FilterIsSubsequence(bookings, b => IsUpcoming(now, b));
    Filter(bookings, b => IsUpcoming(now, b))
  }

  function Past(bookings: seq<Booking>, now: Instant): (r: seq<Booking>)
    ensures IsSubsequence(r, bookings)
    ensures forall i :: 0 <= i < |r| ==> IsPast(now, r[i])
    ensures forall i :: 0 <= i < |bookings| && IsPast(now, bookings[i]) ==> bookings[i] in r
  {
    FilterIsSubsequence(bookings, b => IsPast(now, b));
    Filter(bookings, b => IsPast(now, b))
  }

  /** The two tests are exact complements: every booking is in exactly one
      list, and the lengths add up. */
  lemma Partition(bookings: seq<Booking>, now: Instant)
    ensures |Upcoming(bookings, now)| + |Past(bookings, now)| == |bookings|
    ensures forall i :: 0 <= i < |bookings| ==>
      (bookings[i] in Upcoming(bookings, now) <==> bookings[i] !in Past(bookings, now))
  {
    FilterCount(bookings, b => IsUpcoming(now, b));
    FilterCount(bookings, b => IsPast(now, b));
    CountComplement(bookings, b => IsUpcoming(now, b), b => IsPast(now, b));
    forall i | 0 <= i < |bookings| ensures bookings[i] in Upcoming(bookings, now) <==> bookings[i] !in Past(bookings, now) {
      var up, past := Upcoming(bookings, now), Past(bookings, now);
      if bookings[i] in up {
        var j :| 0 <= j < |up| && up[j] == bookings[i];
      }
      if bookings[i] in past {
        var j :| 0 <= j < |past| && past[j] == bookings[i];
      }
    }
  }

  /** `statusConfig[status].color`; a status outside the three keys has no
      entry, and reading its colour throws. */
  function StatusConfigColor(status: string): (r: Option<string>)
    ensures r.None? <==> status != "scheduled" && status != "completed" && status != "cancelled"
    ensures status == "scheduled" ==> r == Some("bg-green-100 text-green-800")
    ensures status == "completed" ==> r == Some("bg-blue-100 text-blue-800")
    ensures status == "cancelled" ==> r == Some("bg-red-100 text-red-800")
  {
    match status
    case "scheduled" => Some("bg-green-100 text-green-800")
    case "completed" => Some("bg-blue-100 text-blue-800")
    case "cancelled" => Some("bg-red-100 text-red-800")
    case _ => None
  }

  /** "Mark Complete" and "Cancel" are rendered inside the upcoming list's
      cards, under a `status === "scheduled"` guard; the past list's cards
      render no buttons. */
  predicate ShowButtons(now: Instant, b: Booking) {
    IsUpcoming(now, b) && b.status == "scheduled"
  }

  /** A listed booking offers the buttons iff it is in the upcoming list;
      one in the past list, scheduled or not, offers none. */
  lemma ButtonsOnlyOnUpcoming(bookings: seq<Booking>, now: Instant, b: Booking)
    requires b in bookings
    ensures ShowButtons(now, b) <==> b in Upcoming(bookings, now)
    ensures b in Past(bookings, now) ==> !ShowButtons(now, b)
  {
    var up, past := Upcoming(bookings, now), Past(bookings, now);
    if b in up {
      var j :| 0 <= j < |up| && up[j] == b;
    }
    if b in past {
      var j :| 0 <= j < |past| && past[j] == b;
    }
  }

  /** The two statuses the buttons send. */
  datatype NewStatus = Completed | Cancelled

  function StatusText(s: NewStatus): (r: string)
    ensures r != "scheduled"
  {
    match s
    case Completed => "completed"
    case Cancelled => "cancelled"
  }

  /** `prev.map(b => b._id === bookingId ? { ...b, status } : b)`. */
  function WithStatus(bookings: seq<Booking>, bookingId: Id, status: string): (r: seq<Booking>)
    ensures |r| == |bookings|
    ensures forall i :: 0 <= i < |r| ==> r[i].id == bookings[i].id
  {
    seq(|bookings|, i requires 0 <= i < |bookings| =>
      if bookings[i].id == bookingId then bookings[i].(status := status) else bookings[i])
  }

  /** Only bookings with the matching id change, and only in their status. */
  lemma WithStatusChangesOnlyTarget(bookings: seq<Booking>, bookingId: Id, status: string, i: nat)
    requires i < |bookings|
    ensures var r := WithStatus(bookings, bookingId, status);
      (bookings[i].id != bookingId ==> r[i] == bookings[i])
      && (bookings[i].id == bookingId ==> r[i].status == status && r[i].(status := bookings[i].status) == bookings[i])
  {
  }

  /** After marking a booking complete or cancelled, it is no longer
      upcoming, and the upcoming list is otherwise what it was. */
  lemma {:induction false} MarkedLeavesUpcoming(bookings: seq<Booking>, bookingId: Id, s: NewStatus, now: Instant)
    ensures Upcoming(WithStatus(bookings, bookingId, StatusText(s)), now)
      == Filter(Upcoming(bookings, now), (b: Booking) => b.id != bookingId)
  {
    var r := WithStatus(bookings, bookingId, StatusText(s));
    if bookings != [] {
      MarkedLeavesUpcoming(bookings[1..], bookingId, s, now);
      assert WithStatus(bookings[1..], bookingId, StatusText(s)) == r[1..];
    }
  }

  /** Marking twice with the same status is marking once. */
  lemma WithStatusIdempotent(bookings: seq<Booking>, bookingId: Id, status: string)
    ensures WithStatus(WithStatus(bookings, bookingId, status), bookingId, status) == WithStatus(bookings, bookingId, status)
  {
  }

  /** The page's `bookings` state. */
  class BookingList {
    var bookings: seq<Booking>

    constructor (fetched: seq<Booking>)
      ensures bookings == fetched
    {
      bookings := fetched;
    }

    /** `updateBookingStatus`: the PUT's outcome decides whether the list
        changes; on failure it is left as it was. */
    method UpdateBookingStatus(bookingId: Id, status: NewStatus, responseOk: bool)
      modifies this
      ensures responseOk ==> bookings == WithStatus(old(bookings), bookingId, StatusText(status))
      ensures !responseOk ==> bookings == old(bookings)
    {
      if responseOk {
        bookings := WithStatus(bookings, bookingId, StatusText(status));
      }
    }
  }
}
