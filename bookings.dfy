/** /api/bookings (app/api/bookings/route.ts): create a booking and its chat
    room (POST), list a counselor's scheduled bookings (GET), overwrite a
    booking's status (PUT). */
module Bookings {
  import opened Wrappers
  import opened Text
  import opened DateUtil
  import opened Collections
  import opened Sorting
  import opened Store
  import opened Availability
  import opened Conflicts

  /** The POST body; `timeSlot` is "HH:MM-HH:MM" and may be missing. */
  datatype BookingRequest = BookingRequest(counselorId: Id, date: Instant, timeSlot: Option<string>, sessionType: string)

  /** What the checks hand on to the writes. */
  datatype Accepted = Accepted(caller: Id, counselor: Counselor, startTime: string, endTime: string)

  /** The POST's checks, in the handler's order: 401 without `token.id`, 500
      when `timeSlot` is missing (`split` of undefined) or the day lookup
      throws, 404 for an unknown counselor, 400 for a slot that is not
      published or that any booking, cancelled or not, already holds. The
      handler is `CheckBookingPost(AsWritten, ..)`; `WholeDay` gives the
      checks over the range the handler means. */
  function CheckBookingPost(range: DayRange, counselors: seq<Counselor>, bookings: seq<Booking>, tokenId: Option<Id>,
                            req: BookingRequest, now: Instant): (r: Response<Accepted>)
    ensures r == Err(Unauthorized) <==> tokenId.None?
    ensures tokenId.Some? && req.timeSlot.None? ==> r == Err(ServerError)
    ensures tokenId.Some? && req.timeSlot.Some? ==>
      (r == Err(NotFound) <==> FindCounselor(counselors, req.counselorId).None?)
    ensures r.Ok? <==>
      tokenId.Some? && req.timeSlot.Some? && FindCounselor(counselors, req.counselorId).Some?
      && var (s, e) := SplitTimeSlot(req.timeSlot.value);
      CheckMembership(FindCounselor(counselors, req.counselorId).value.workPreferences.availability,
                      req.date, s, e, now) == Listed
      && !PostCollision(range, bookings, req.counselorId, req.date, s, e.value)
    ensures r.Ok? ==>
      r.body.caller == tokenId.value
      && Some(r.body.counselor) == FindCounselor(counselors, req.counselorId)
      && (r.body.startTime, Some(r.body.endTime)) == SplitTimeSlot(req.timeSlot.value)
  {
    if tokenId.None? then Err(Unauthorized)
    else if req.timeSlot.None? then Err(ServerError)
    else
      var (s, e) := SplitTimeSlot(req.timeSlot.value);
      match FindCounselor(counselors, req.counselorId)
      case None => Err(NotFound)
      case Some(c) =>
        match CheckMembership(c.workPreferences.availability, req.date, s, e, now)
        case Throws => Err(ServerError)
        case NotListed => Err(BadRequest)
        case Listed =>
          if PostCollision(range, bookings, req.counselorId, req.date, s, e.value) then Err(BadRequest)
          else Ok(Accepted(tokenId.value, c, s, e.value))
  }

  /** The booking `Booking.create` stores: the caller as client, the
      mutated `bookingDate` (end of the requested day) as its date, status
      "scheduled" and the counselor's `workPreferences.hourlyRate` as
      amount. */
  function PostedBooking(id: Id, a: Accepted, req: BookingRequest): (b: Booking)
    ensures b.userId == a.caller && b.counselorId == req.counselorId && b.status == "scheduled"
    ensures b.amount == a.counselor.workPreferences.hourlyRate
    ensures SameDay(b.date, req.date) && SameSlot(WholeDay, b, req.counselorId, req.date, a.startTime, a.endTime)
  {
    DayOfWindow(EndOfDay(req.date), StartOfDay(req.date));
    Booking(id, a.caller, req.counselorId, EndOfDay(req.date), a.startTime, Some(a.endTime), req.sessionType,
            "scheduled", a.counselor.workPreferences.hourlyRate, None, None, None)
  }

  datatype BookingCreated = BookingCreated(booking: Booking, chatRoomId: Id)

  /** The POST, with the collision query as written: on success exactly one
      booking is appended and the chat room for the (caller, counselor) pair
      is upserted; on any error the store is unchanged. */
  method PostBooking(db: Db, tokenId: Option<Id>, req: BookingRequest, now: Instant) returns (r: Response<BookingCreated>)
    requires db.Valid()
    modifies db
    ensures db.Valid()
    ensures var check := CheckBookingPost(AsWritten, old(db.counselors), old(db.bookings), tokenId, req, now);
      (r.Err? <==> check.Err?)
      && (check.Err? ==> r == Err(check.status) && db.bookings == old(db.bookings) && db.rooms == old(db.rooms))
      && (check.Ok? ==>
        r.body.booking == PostedBooking(r.body.booking.id, check.body, req)
        && r.body.booking.id == old(db.nextId)
        && db.bookings == old(db.bookings) + [r.body.booking]
        && UpsertRoom(old(db.rooms), check.body.caller, req.counselorId, old(db.nextId) + 1, now)
           == Upserted(db.rooms, r.body.chatRoomId))
    ensures db.users == old(db.users) && db.counselors == old(db.counselors) && db.profiles == old(db.profiles)
    ensures db.messages == old(db.messages) && db.appointments == old(db.appointments)
  {
    var check := CheckBookingPost(AsWritten, db.counselors, db.bookings, tokenId, req, now);
    if check.Err? {
      return Err(check.status);
    }
    var b := db.AddBooking(PostedBooking(0, check.body, req));
    var roomId := db.UpsertPairRoom(check.body.caller, req.counselorId, now);
    r := Ok(BookingCreated(b, roomId));
  }

  /** Over the whole requested day, once a POST has succeeded the identical
      request is refused as taken: the booking just stored falls in the
      range. */
  lemma RepeatPostRejected(counselors: seq<Counselor>, bookings: seq<Booking>, tokenId: Option<Id>,
                           req: BookingRequest, now: Instant, id: Id)
    requires CheckBookingPost(WholeDay, counselors, bookings, tokenId, req, now).Ok?
    ensures var a := CheckBookingPost(WholeDay, counselors, bookings, tokenId, req, now).body;
      CheckBookingPost(WholeDay, counselors, bookings + [PostedBooking(id, a, req)], tokenId, req, now) == Err(BadRequest)
  {
    var a := CheckBookingPost(WholeDay, counselors, bookings, tokenId, req, now).body;
    var b := PostedBooking(id, a, req);
    AnySameSlotBlocksPost(WholeDay, bookings, b, req.counselorId, req.date, a.startTime, a.endTime);
  }

  /** Over the range as written, the booking the POST stores (at the last
      millisecond of the day) is outside the collision range of the very
      same request, though it is on the requested day. */
  lemma PostedBookingMissedAsWritten(id: Id, a: Accepted, req: BookingRequest)
    ensures !PostCollision(AsWritten, [PostedBooking(id, a, req)], req.counselorId, req.date, a.startTime, a.endTime)
    ensures PostCollision(WholeDay, [PostedBooking(id, a, req)], req.counselorId, req.date, a.startTime, a.endTime)
  {
    var b := PostedBooking(id, a, req);
    assert [b][0] == b;
  }

  /** As written, the identical request is accepted again after a successful
      POST, so the handler stores a second booking of the same slot. */
  lemma RepeatPostAcceptedAsWritten(counselors: seq<Counselor>, bookings: seq<Booking>, tokenId: Option<Id>,
                                    req: BookingRequest, now: Instant, id: Id)
    requires CheckBookingPost(AsWritten, counselors, bookings, tokenId, req, now).Ok?
    ensures var a := CheckBookingPost(AsWritten, counselors, bookings, tokenId, req, now).body;
      CheckBookingPost(AsWritten, counselors, bookings + [PostedBooking(id, a, req)], tokenId, req, now)
      == Ok(a)
  {
    var a := CheckBookingPost(AsWritten, counselors, bookings, tokenId, req, now).body;
    EndOfDayInvisible(bookings, PostedBooking(id, a, req), req.counselorId, req.date, a.startTime, a.endTime);
  }

  /** A cancelled booking in the POST's range still blocks the POST, though
      validation lets the same slot through. */
  lemma CancelledBlocksPost(range: DayRange, counselors: seq<Counselor>, bookings: seq<Booking>, b: Booking, tokenId: Option<Id>,
                            req: BookingRequest, now: Instant)
    requires CheckBookingPost(range, counselors, bookings, tokenId, req, now).Ok?
    requires var a := CheckBookingPost(range, counselors, bookings, tokenId, req, now).body;
      b.status == "cancelled" && SameSlot(range, b, req.counselorId, req.date, a.startTime, a.endTime)
    ensures CheckBookingPost(range, counselors, bookings + [b], tokenId, req, now) == Err(BadRequest)
  {
    var a := CheckBookingPost(range, counselors, bookings, tokenId, req, now).body;
    AnySameSlotBlocksPost(range, bookings, b, req.counselorId, req.date, a.startTime, a.endTime);
  }

  /** Sort key of `.sort({ date: 1, startTime: 1 })`. */
  function DateStartKey(b: Booking): Key {
    Key(0, b.date, b.startTime)
  }

  predicate ScheduledFor(counselorId: Id, b: Booking) {
    b.counselorId == counselorId && b.status == "scheduled"
  }

  /** The GET: 401 without `token.id`; otherwise the first five of the
      caller's "scheduled" bookings as counselor in (date, startTime) order:
      no such booking left out comes before one returned. */
  function GetBookings(bookings: seq<Booking>, tokenId: Option<Id>): (r: Response<seq<Booking>>)
    ensures r.Err? <==> tokenId.None?
    ensures r.Err? ==> r.status == Unauthorized
    ensures r.Ok? ==>
      |r.body| <= 5 && SortedBy(r.body, DateStartKey)
      && (forall i :: 0 <= i < |r.body| ==> r.body[i] in bookings && ScheduledFor(tokenId.value, r.body[i]))
      && |r.body| == (if Count(bookings, b => ScheduledFor(tokenId.value, b)) < 5
                      then Count(bookings, b => ScheduledFor(tokenId.value, b)) else 5)
      && forall k :: 0 <= k < |bookings| && ScheduledFor(tokenId.value, bookings[k]) && bookings[k] !in r.body ==>
           forall j :: 0 <= j < |r.body| ==> KeyLe(DateStartKey(r.body[j]), DateStartKey(bookings[k]))
  {
    if tokenId.None? then Err(Unauthorized)
    else
      SortedFilterPrefix(bookings, b => ScheduledFor(tokenId.value, b), DateStartKey, 5);
      Ok(Take(SortBy(Filter(bookings, b => ScheduledFor(tokenId.value, b)), DateStartKey), 5))
  }

  /** Position of the first booking with that id (`findById`). */
  function BookingIndex(bookings: seq<Booking>, bookingId: Id): (r: Option<nat>)
    ensures r.Some? ==> r.value < |bookings| && bookings[r.value].id == bookingId
    ensures r.None? <==> forall i :: 0 <= i < |bookings| ==> bookings[i].id != bookingId
  {
    if bookings == [] then None
    else if bookings[0].id == bookingId then Some(0)
    else match BookingIndex(bookings[1..], bookingId)
      case None => None
      case Some(i) => Some(i + 1)
  }

  /** `Booking.findByIdAndUpdate(bookingId, { status })`: the booking with
      that id, if any, with its status replaced, and the new collection. */
  function SetBookingStatus(bookings: seq<Booking>, bookingId: Id, status: string): (r: Option<(seq<Booking>, Booking)>)
    ensures r.None? <==> forall i :: 0 <= i < |bookings| ==> bookings[i].id != bookingId
    ensures r.Some? ==>
      |r.value.0| == |bookings| && r.value.1.id == bookingId && r.value.1.status == status
      && r.value.1 in r.value.0
  {
    match BookingIndex(bookings, bookingId)
    case None => None
    case Some(k) =>
      var updated := bookings[k].(status := status);
      assert bookings[k := updated][k] == updated;
      Some((bookings[k := updated], updated))
  }

  /** Nothing but the target's status changes. */
  lemma SetStatusChangesOnlyTarget(bookings: seq<Booking>, bookingId: Id, status: string, i: nat)
    requires SetBookingStatus(bookings, bookingId, status).Some? && i < |bookings|
    ensures var bs := SetBookingStatus(bookings, bookingId, status).value.0;
      bs[i].(status := bookings[i].status) == bookings[i]
      && (bookings[i].id != bookingId ==> bs[i] == bookings[i])
  {
  }

  /** No transition or ownership rule: any status may follow any other, for
      any caller, e.g. a cancelled booking may be made scheduled again. */
  lemma AnyTransitionAllowed(b: Booking, status: string)
    ensures var r := SetBookingStatus([b], b.id, status);
      r.Some? && r.value.1.status == status && r.value.1.(status := b.status) == b
  {
  }

  /** The PUT: 401 without `token.userId`, 404 for an unknown id, otherwise
      the booking's status is overwritten. */
  method PutBooking(db: Db, tokenUserId: Option<Id>, bookingId: Id, status: string) returns (r: Response<Booking>)
    requires db.Valid()
    modifies db`bookings
    ensures db.Valid()
    ensures tokenUserId.None? ==> r == Err(Unauthorized) && db.bookings == old(db.bookings)
    ensures tokenUserId.Some? ==> match SetBookingStatus(old(db.bookings), bookingId, status)
      case None => r == Err(NotFound) && db.bookings == old(db.bookings)
      case Some((bs, b)) => r == Ok(b) && db.bookings == bs
  {
    if tokenUserId.None? {
      return Err(Unauthorized);
    }
    match SetBookingStatus(db.bookings, bookingId, status)
    case None =>
      r := Err(NotFound);
    case Some((bs, b)) =>
      SameIdsAfterStatus(db.bookings, bookingId, status, db.nextId);
      db.bookings := bs;
      r := Ok(b);
  }

  /** A status overwrite keeps the ids. */
  lemma SameIdsAfterStatus(bookings: seq<Booking>, bookingId: Id, status: string, bound: Id)
    requires BookingIdsFresh(bookings, bound) && SetBookingStatus(bookings, bookingId, status).Some?
    ensures BookingIdsFresh(SetBookingStatus(bookings, bookingId, status).value.0, bound)
  {
    var bs := SetBookingStatus(bookings, bookingId, status).value.0;
    assert forall i :: 0 <= i < |bookings| ==> bs[i].id == bookings[i].id;
  }
}
