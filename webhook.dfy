/** POST /api/webhooks/stripe (app/api/webhooks/stripe/route.ts): turn a
    completed checkout into a paid booking and a chat room, with no
    availability or collision check. Signature verification
    (`stripe.webhooks.constructEvent`) is an oracle: `verified` is the event
    it yields, or None when it throws. */
module Webhook {
  import opened Wrappers
  import opened Text
  import opened DateUtil
  import opened Store
  import opened Availability

  /** The metadata app/api/checkout_session/route.ts attaches to a session. */
  datatype CheckoutMetadata = CheckoutMetadata(counselorId: Id, userId: Id, date: Instant, timeSlot: string, sessionType: string)

  /** The parts of a checkout session the handler reads; `amountTotal` is in
      cents. */
  datatype CheckoutSession = CheckoutSession(metadata: Option<CheckoutMetadata>, amountTotal: Option<int>, paymentIntent: Option<string>)

  datatype StripeEvent = StripeEvent(eventType: string, session: CheckoutSession)

  const CheckoutCompleted := "checkout.session.completed"

  /** `metadata: { counselorId, userId, date, timeSlot, sessionType }` as the
      checkout route builds it from the request. */
  function BuildMetadata(counselorId: Id, caller: Id, date: Instant, timeSlot: string, sessionType: string): (m: CheckoutMetadata)
    ensures m.timeSlot == timeSlot && m.userId == caller && m.counselorId == counselorId
  {
    CheckoutMetadata(counselorId, caller, date, timeSlot, sessionType)
  }

  /** `session.amount_total ? session.amount_total / 100 : 0`: dollars from
      cents, 0 when absent or zero. */
  function AmountFromCents(amountTotal: Option<int>): (r: real)
    ensures amountTotal.None? ==> r == 0.0
    ensures amountTotal.Some? ==> r * 100.0 == amountTotal.value as real
  {
    match amountTotal
    case None => 0.0
    case Some(c) => if c == 0 then 0.0 else c as real / 100.0
  }

  /** The booking the handler creates from the metadata. */
  function PaidBooking(id: Id, m: CheckoutMetadata, s: CheckoutSession): (b: Booking)
    ensures b.userId == m.userId && b.counselorId == m.counselorId && b.date == m.date
    ensures b.status == "scheduled" && b.paymentStatus == Some("paid") && b.paymentReference == s.paymentIntent
    ensures b.amount == Some(AmountFromCents(s.amountTotal))
    ensures (b.startTime, b.endTime) == SplitTimeSlot(m.timeSlot)
  {
    var (startTime, endTime) := SplitTimeSlot(m.timeSlot);
    Booking(id, m.userId, m.counselorId, m.date, startTime, endTime, m.sessionType, "scheduled",
            Some(AmountFromCents(s.amountTotal)), Some("paid"), s.paymentIntent, None)
  }

  /** What the handler does with an event. */
  datatype Outcome = NoSignature | BadSignature | Ignored | MissingMetadata | Book(m: CheckoutMetadata, s: CheckoutSession)

  /** The gating: 400 without a signature or when verification fails, an
      exception (500) for a completed checkout without metadata, nothing for
      any other event type. */
  function Gate(signature: Option<string>, verified: Option<StripeEvent>): (o: Outcome)
    ensures o.Book? <==>
      signature.Some? && verified.Some? && verified.value.eventType == CheckoutCompleted
      && verified.value.session.metadata.Some?
    ensures o.Book? ==> o.m == verified.value.session.metadata.value && o.s == verified.value.session
    ensures o == Ignored <==> signature.Some? && verified.Some? && verified.value.eventType != CheckoutCompleted
  {
    if signature.None? then NoSignature
    else if verified.None? then BadSignature
    else if verified.value.eventType != CheckoutCompleted then Ignored
    else if verified.value.session.metadata.None? then MissingMetadata
    else Book(verified.value.session.metadata.value, verified.value.session)
  }

  /** The HTTP reply for each gate outcome (`{ received: true }` is Ok). */
  function Reply(o: Outcome): (r: Response<()>)
    ensures r.Ok? <==> o.Ignored? || o.Book?
    ensures o.NoSignature? || o.BadSignature? ==> r == Err(BadRequest)
    ensures o.MissingMetadata? ==> r == Err(ServerError)
  {
    match o
    case NoSignature => Err(BadRequest)
    case BadSignature => Err(BadRequest)
    case Ignored => Ok(())
    case MissingMetadata => Err(ServerError)
    case Book(_, _) => Ok(())
  }

  /** The handler: only a completed checkout with metadata writes, appending
      one paid booking and upserting the (client, counselor) room. */
  method HandleWebhook(db: Db, signature: Option<string>, verified: Option<StripeEvent>, now: Instant)
    returns (r: Response<()>)
    requires db.Valid()
    modifies db
    ensures db.Valid()
    ensures r == Reply(Gate(signature, verified))
    ensures match Gate(signature, verified)
      case Book(m, s) =>
        db.bookings == old(db.bookings) + [PaidBooking(old(db.nextId), m, s)]
        && db.rooms == UpsertRoom(old(db.rooms), m.userId, m.counselorId, old(db.nextId) + 1, now).rooms
      case _ => db.bookings == old(db.bookings) && db.rooms == old(db.rooms)
    ensures db.users == old(db.users) && db.counselors == old(db.counselors) && db.profiles == old(db.profiles)
    ensures db.messages == old(db.messages) && db.appointments == old(db.appointments)
  {
    var o := Gate(signature, verified);
    r := Reply(o);
    if o.Book? {
      var b := db.AddBooking(PaidBooking(0, o.m, o.s));
      var roomId := db.UpsertPairRoom(o.m.userId, o.m.counselorId, now);
    }
  }

  /** A well-formed "S-E" slot carried through the checkout metadata comes
      back as exactly S and E. */
  lemma MetadataRoundTrip(counselorId: Id, caller: Id, date: Instant, s: string, e: string, sessionType: string,
                          id: Id, session: CheckoutSession)
    requires WellFormedTime(s) && WellFormedTime(e)
    ensures var b := PaidBooking(id, BuildMetadata(counselorId, caller, date, s + "-" + e, sessionType), session);
      b.startTime == s && b.endTime == Some(e) && b.userId == caller && b.counselorId == counselorId && b.date == date
  {
    SplitWellFormed(s, e);
  }

  /** No check precedes the insert: the same booking fields are stored
      whatever bookings the store already holds, so a replayed event books
      the slot a second time; only the room upsert is idempotent. */
  lemma ReplayBooksTwice(rooms: seq<ChatRoom>, m: CheckoutMetadata, s: CheckoutSession, id1: Id, id2: Id,
                         t1: Instant, t2: Instant)
    ensures PaidBooking(id1, m, s).(id := id2) == PaidBooking(id2, m, s)
    ensures var first := UpsertRoom(rooms, m.userId, m.counselorId, id1 + 1, t1);
      UpsertRoom(first.rooms, m.userId, m.counselorId, id2 + 1, t2) == first
  {
    UpsertIdempotent(rooms, m.userId, m.counselorId, id1 + 1, id2 + 1, t1, t2);
  }

  /** A session whose amount is 2500 cents books 25 dollars. */
  lemma CentsToDollars()
    ensures AmountFromCents(Some(2500)) == 25.0
    ensures AmountFromCents(Some(0)) == 0.0 && AmountFromCents(None) == 0.0
  {
  }
}
