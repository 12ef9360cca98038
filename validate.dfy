/** POST /api/bookings/validate (app/api/bookings/validate/route.ts): a
    read-only decision on whether a slot can be booked. */
module Validate {
  import opened Wrappers
  import opened DateUtil
  import opened Store
  import opened Availability
  import opened Conflicts

  datatype ValidateRequest = ValidateRequest(counselorId: Id, date: Instant, startTime: string, endTime: Option<string>)

  /** The handler's response: 401 without `token.userId`, 404 for an unknown
      counselor, 500 when the day lookup throws, 400 for a slot that is not
      published or is taken by a non-cancelled booking, success otherwise.
      The handler is `ValidateSlot(AsWritten, ..)`; `WholeDay` gives the
      check over the range the handler means. */
  function ValidateSlot(range: DayRange, counselors: seq<Counselor>, bookings: seq<Booking>, tokenUserId: Option<Id>,
                        req: ValidateRequest, now: Instant): (r: Response<()>)
    ensures r == Err(Unauthorized) <==> tokenUserId.None?
    ensures tokenUserId.Some? ==>
      (r == Err(NotFound) <==> FindCounselor(counselors, req.counselorId).None?)
    ensures r.Ok? <==>
      tokenUserId.Some? && FindCounselor(counselors, req.counselorId).Some?
      && var c := FindCounselor(counselors, req.counselorId).value;
      CheckMembership(c.workPreferences.availability, req.date, req.startTime, req.endTime, now) == Listed
      && !ValidationCollision(range, bookings, req.counselorId, req.date, req.startTime, req.endTime.value)
    ensures r.Err? ==> r.status in {Unauthorized, NotFound, BadRequest, ServerError}
  {
    if tokenUserId.None? then Err(Unauthorized)
    else match FindCounselor(counselors, req.counselorId)
      case None => Err(NotFound)
      case Some(c) =>
        match CheckMembership(c.workPreferences.availability, req.date, req.startTime, req.endTime, now)
        case Throws => Err(ServerError)
        case NotListed => Err(BadRequest)
        case Listed =>
          if ValidationCollision(range, bookings, req.counselorId, req.date, req.startTime, req.endTime.value)
          then Err(BadRequest)
          else Ok(())
  }

  /** Existence is checked before membership and membership before the
      collision: a rejected slot is reported as 400 whatever the bookings. */
  lemma CheckOrder(range: DayRange, counselors: seq<Counselor>, bs1: seq<Booking>, bs2: seq<Booking>, tokenUserId: Option<Id>,
                   req: ValidateRequest, now: Instant)
    requires tokenUserId.Some? && FindCounselor(counselors, req.counselorId).Some?
    requires CheckMembership(FindCounselor(counselors, req.counselorId).value.workPreferences.availability,
                             req.date, req.startTime, req.endTime, now) != Listed
    ensures ValidateSlot(range, counselors, bs1, tokenUserId, req, now) == ValidateSlot(range, counselors, bs2, tokenUserId, req, now)
    ensures ValidateSlot(range, counselors, bs1, tokenUserId, req, now).Err?
  {
  }

  /** A published slot with a live booking on it that day is reported as
      taken, except, over the range as written, a booking dated at the day's
      last millisecond. */
  lemma LiveBookingRejected(range: DayRange, counselors: seq<Counselor>, bookings: seq<Booking>, tokenUserId: Option<Id>,
                            req: ValidateRequest, now: Instant, k: nat)
    requires tokenUserId.Some? && FindCounselor(counselors, req.counselorId).Some?
    requires CheckMembership(FindCounselor(counselors, req.counselorId).value.workPreferences.availability,
                             req.date, req.startTime, req.endTime, now) == Listed
    requires k < |bookings| && bookings[k].status != "cancelled"
    requires bookings[k].counselorId == req.counselorId && SameDay(bookings[k].date, req.date)
    requires range == AsWritten ==> bookings[k].date != EndOfDay(req.date)
    requires bookings[k].startTime == req.startTime && bookings[k].endTime == req.endTime
    ensures ValidateSlot(range, counselors, bookings, tokenUserId, req, now) == Err(BadRequest)
  {
    InDayRangeIffSameDay(bookings[k], req.date);
    RangesDifferOnlyAtEndOfDay(bookings[k], req.date);
    assert SameSlot(range, bookings[k], req.counselorId, req.date, req.startTime, req.endTime.value);
  }

  /** Adding a cancelled booking never changes the verdict. */
  lemma CancelledIgnored(range: DayRange, counselors: seq<Counselor>, bookings: seq<Booking>, b: Booking, tokenUserId: Option<Id>,
                         req: ValidateRequest, now: Instant)
    requires b.status == "cancelled"
    ensures ValidateSlot(range, counselors, bookings + [b], tokenUserId, req, now)
         == ValidateSlot(range, counselors, bookings, tokenUserId, req, now)
  {
    if req.endTime.Some? {
      CancelledNeverBlocksValidation(range, bookings, b, req.counselorId, req.date, req.startTime, req.endTime.value);
    }
  }

  /** As written, a booking dated at the last millisecond of the requested
      day (the date the booking POST stores) never changes the verdict, even
      a live one on the very same slot. */
  lemma EndOfDayBookingIgnored(counselors: seq<Counselor>, bookings: seq<Booking>, b: Booking, tokenUserId: Option<Id>,
                               req: ValidateRequest, now: Instant)
    requires b.date == EndOfDay(req.date)
    ensures ValidateSlot(AsWritten, counselors, bookings + [b], tokenUserId, req, now)
         == ValidateSlot(AsWritten, counselors, bookings, tokenUserId, req, now)
  {
    if req.endTime.Some? {
      EndOfDayInvisible(bookings, b, req.counselorId, req.date, req.startTime, req.endTime.value);
    }
  }
}
