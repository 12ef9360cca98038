/** The collision rules of the four booking paths, over one shared store.
    app/api/bookings/validate/route.ts skips cancelled bookings;
    app/api/bookings/route.ts counts every booking; the Stripe webhook
    checks nothing; app/api/appointments/route.ts compares the exact date
    and the start time of CONFIRMED appointments only. */
module Conflicts {
  import opened Wrappers
  import opened DateUtil
  import opened Store

  /** The day range both booking handlers write, `$gte` the requested day's
      midnight and `$lt` the value `setHours(23, 59, 59, 999)` leaves in
      `bookingDate`: the last millisecond of the day is outside it. */
  predicate InDayRangeAsWritten(b: Booking, date: Instant) {
    StartOfDay(date) <= b.date < EndOfDay(date)
  }

  /** The range the handlers mean: the whole requested calendar day. */
  predicate InDayRange(b: Booking, date: Instant) {
    StartOfDay(date) <= b.date < StartOfDay(date) + MsPerDay
  }

  /** The corrected range is exactly "on the requested day". */
  lemma InDayRangeIffSameDay(b: Booking, date: Instant)
    ensures InDayRange(b, date) <==> SameDay(b.date, date)
  {
    DayOfWindow(b.date, StartOfDay(date));
  }

  /** The two ranges differ only at the last millisecond of the day. */
  lemma RangesDifferOnlyAtEndOfDay(b: Booking, date: Instant)
    ensures InDayRangeAsWritten(b, date) <==> InDayRange(b, date) && b.date != EndOfDay(date)
  {
  }

  /** Which day range a collision query uses: `AsWritten` is the range both
      booking handlers query, `WholeDay` the calendar day they mean. */
  datatype DayRange = AsWritten | WholeDay

  predicate InRange(range: DayRange, b: Booking, date: Instant) {
    match range
    case AsWritten => InDayRangeAsWritten(b, date)
    case WholeDay => InDayRange(b, date)
  }

  /** The query fields of both booking handlers other than status, over the
      given day range. */
  predicate SameSlot(range: DayRange, b: Booking, counselorId: Id, date: Instant, startTime: string, endTime: string) {
    b.counselorId == counselorId && InRange(range, b, date) && b.startTime == startTime && b.endTime == Some(endTime)
  }

  /** The validate route's `findOne`, with `status: { $ne: "cancelled" }`;
      the handler's query is the `AsWritten` one. */
  predicate ValidationCollision(range: DayRange, bs: seq<Booking>, counselorId: Id, date: Instant, startTime: string, endTime: string) {
    exists i :: 0 <= i < |bs| && SameSlot(range, bs[i], counselorId, date, startTime, endTime) && bs[i].status != "cancelled"
  }

  /** The booking POST's `findOne`, with no status filter; the handler's
      query is the `AsWritten` one. */
  predicate PostCollision(range: DayRange, bs: seq<Booking>, counselorId: Id, date: Instant, startTime: string, endTime: string) {
    exists i :: 0 <= i < |bs| && SameSlot(range, bs[i], counselorId, date, startTime, endTime)
  }

  /** Over the range as written, a booking dated at the last millisecond of
      the requested day is invisible to both queries. */
  lemma EndOfDayInvisible(bs: seq<Booking>, b: Booking, counselorId: Id, date: Instant, s: string, e: string)
    requires b.date == EndOfDay(date)
    ensures PostCollision(AsWritten, bs + [b], counselorId, date, s, e) <==> PostCollision(AsWritten, bs, counselorId, date, s, e)
    ensures ValidationCollision(AsWritten, bs + [b], counselorId, date, s, e) <==> ValidationCollision(AsWritten, bs, counselorId, date, s, e)
  {
    if PostCollision(AsWritten, bs + [b], counselorId, date, s, e) {
      var i :| 0 <= i < |bs + [b]| && SameSlot(AsWritten, (bs + [b])[i], counselorId, date, s, e);
      assert i < |bs| && bs[i] == (bs + [b])[i];
    }
    if PostCollision(AsWritten, bs, counselorId, date, s, e) {
      var i :| 0 <= i < |bs| && SameSlot(AsWritten, bs[i], counselorId, date, s, e);
      assert (bs + [b])[i] == bs[i];
    }
    if ValidationCollision(AsWritten, bs + [b], counselorId, date, s, e) {
      var i :| 0 <= i < |bs + [b]| && SameSlot(AsWritten, (bs + [b])[i], counselorId, date, s, e) && (bs + [b])[i].status != "cancelled";
      assert i < |bs| && bs[i] == (bs + [b])[i];
    }
    if ValidationCollision(AsWritten, bs, counselorId, date, s, e) {
      var i :| 0 <= i < |bs| && SameSlot(AsWritten, bs[i], counselorId, date, s, e) && bs[i].status != "cancelled";
      assert (bs + [b])[i] == bs[i];
    }
  }

  /** The appointments POST's `findOne`: the identical date value, the same
      start, status CONFIRMED; the end time is not part of it. */
  predicate AppointmentConflict(ap: seq<Appointment>, counselorId: Id, date: Instant, startTime: string) {
    exists i :: 0 <= i < |ap| && ap[i].counselor == counselorId && ap[i].date == date
      && ap[i].startTime == startTime && ap[i].status == "CONFIRMED"
  }

  /** A cancelled booking never blocks validation. */
  lemma CancelledNeverBlocksValidation(range: DayRange, bs: seq<Booking>, b: Booking, counselorId: Id, date: Instant, s: string, e: string)
    requires b.status == "cancelled"
    ensures ValidationCollision(range, bs + [b], counselorId, date, s, e) <==> ValidationCollision(range, bs, counselorId, date, s, e)
  {
    if ValidationCollision(range, bs + [b], counselorId, date, s, e) {
      var i :| 0 <= i < |bs + [b]| && SameSlot(range, (bs + [b])[i], counselorId, date, s, e) && (bs + [b])[i].status != "cancelled";
      assert i < |bs| && bs[i] == (bs + [b])[i];
    }
    if ValidationCollision(range, bs, counselorId, date, s, e) {
      var i :| 0 <= i < |bs| && SameSlot(range, bs[i], counselorId, date, s, e) && bs[i].status != "cancelled";
      assert (bs + [b])[i] == bs[i];
    }
  }

  /** The same booking, cancelled or not, blocks the booking POST. */
  lemma AnySameSlotBlocksPost(range: DayRange, bs: seq<Booking>, b: Booking, counselorId: Id, date: Instant, s: string, e: string)
    requires SameSlot(range, b, counselorId, date, s, e)
    ensures PostCollision(range, bs + [b], counselorId, date, s, e)
  {
    assert (bs + [b])[|bs|] == b;
  }

  /** The POST's check is at least as strict as validation's, and strictly
      stricter exactly when the only same-slot bookings are cancelled. */
  lemma PostStricterThanValidation(range: DayRange, bs: seq<Booking>, counselorId: Id, date: Instant, s: string, e: string)
    ensures ValidationCollision(range, bs, counselorId, date, s, e) ==> PostCollision(range, bs, counselorId, date, s, e)
    ensures PostCollision(range, bs, counselorId, date, s, e) && !ValidationCollision(range, bs, counselorId, date, s, e) ==>
      forall i :: 0 <= i < |bs| && SameSlot(range, bs[i], counselorId, date, s, e) ==> bs[i].status == "cancelled"
  {
  }

  /** The appointment rule ignores the end time: two requests that differ
      only there get the same verdict, while the booking rules tell them
      apart. */
  lemma AppointmentIgnoresEndTime(range: DayRange, b: Booking, counselorId: Id, date: Instant, s: string, e1: string, e2: string)
    requires e1 != e2 && SameSlot(range, b, counselorId, date, s, e1)
    ensures !PostCollision(range, [b], counselorId, date, s, e2)
  {
  }

  /** Only an identical date value conflicts: an appointment one millisecond
      later on the same day at the same start does not. */
  lemma AppointmentNeedsIdenticalDate(a: Appointment, date: Instant)
    requires a.date == date + 1 && a.status == "CONFIRMED"
    ensures !AppointmentConflict([a], a.counselor, date, a.startTime)
  {
  }
}
