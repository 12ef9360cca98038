/** The document store the route handlers share, as in-memory collections.
    Each collection is kept in insertion order, which is the order a query
    without a sort returns. Field names follow the handlers that read and
    write them (the Booking, ChatRoom and ClientProfile models the routes
    import are not part of this model's source; lib/db/schema.ts gives the
    enums and the `read` default). */
module Store {
  import opened Wrappers
  import opened DateUtil

  /** An ObjectId. */
  type Id = nat

  /** A published slot: "HH:MM" start and end strings, compared verbatim. */
  datatype Slot = Slot(startTime: string, endTime: string)

  /** One availability entry; `day` is absent when the schedule update that
      wrote it sent no day. */
  datatype DayEntry = DayEntry(day: Option<Instant>, slots: seq<Slot>)

  datatype WorkPreferences = WorkPreferences(availability: seq<DayEntry>, hourlyRate: Option<real>)

  /** A counselor document. The schedule POST and GET use the top-level
      `availability` / `hourlyRate`; the schedule PUT and every booking
      handler use `workPreferences`. */
  datatype Counselor = Counselor(
    userId: Id,
    fullName: string,
    gender: Option<string>,
    specializations: seq<string>,
    languages: seq<string>,
    yearsOfExperience: int,
    availability: seq<DayEntry>,
    hourlyRate: Option<real>,
    workPreferences: WorkPreferences)

  /** A booking; `userId` is the client. `amount` is in dollars. */
  datatype Booking = Booking(
    id: Id,
    userId: Id,
    counselorId: Id,
    date: Instant,
    startTime: string,
    endTime: Option<string>,
    sessionType: string,
    status: string,
    amount: Option<real>,
    paymentStatus: Option<string>,
    paymentReference: Option<string>,
    rating: Option<real>)

  /** A conversation between two users, stored in the fixed slots user1 and
      user2, with a copy of its latest message. */
  datatype ChatRoom = ChatRoom(
    id: Id,
    user1Id: Id,
    user2Id: Id,
    lastMessage: Option<string>,
    lastMessageDate: Option<Instant>,
    createdAt: Instant)

  datatype Message = Message(
    id: Id,
    content: string,
    senderId: Id,
    receiverId: Id,
    chatRoomId: Id,
    read: bool,
    createdAt: Instant)

  /** An appointment (`status` is one of PENDING, CONFIRMED, CANCELLED). */
  datatype Appointment = Appointment(
    id: Id,
    client: Id,
    counselor: Id,
    date: Instant,
    startTime: string,
    endTime: string,
    status: string,
    notes: Option<string>)

  /** A user account (`role` is CLIENT or COUNSELOR). */
  datatype User = User(id: Id, name: string, email: string, image: string, role: string)

  /** A client's matching preferences. */
  datatype ClientProfile = ClientProfile(
    userId: Id,
    preferredLanguages: seq<string>,
    preferredGender: Option<string>,
    counselingType: seq<string>)

  // ----- queries -----

  /** `Counselor.findOne({ userId })`: the first counselor with that user id. */
  function FindCounselor(cs: seq<Counselor>, userId: Id): (r: Option<Counselor>)
    ensures r.Some? ==> r.value in cs && r.value.userId == userId
    ensures r.None? <==> forall i :: 0 <= i < |cs| ==> cs[i].userId != userId
  {
    match CounselorIndex(cs, userId)
    case None => None
    case Some(i) => Some(cs[i])
  }

  /** Position of the first counselor with that user id. */
  function CounselorIndex(cs: seq<Counselor>, userId: Id): (r: Option<nat>)
    ensures r.Some? ==> r.value < |cs| && cs[r.value].userId == userId
    ensures r.Some? ==> forall i :: 0 <= i < r.value ==> cs[i].userId != userId
    ensures r.None? <==> forall i :: 0 <= i < |cs| ==> cs[i].userId != userId
  {
    if cs == [] then None
    else if cs[0].userId == userId then Some(0)
    else match CounselorIndex(cs[1..], userId)
      case None => None
      case Some(i) => Some(i + 1)
  }

  /** `findOne` / `findById` on one key field: the first record whose key
      is k. */
  function FindBy<T>(records: seq<T>, key: T -> Id, k: Id): (r: Option<T>)
    ensures r.Some? ==> r.value in records && key(r.value) == k
    ensures r.None? <==> forall i :: 0 <= i < |records| ==> key(records[i]) != k
  {
    if records == [] then None
    else if key(records[0]) == k then Some(records[0])
    else FindBy(records[1..], key, k)
  }

  /** `User.findById`. */
  function FindUser(users: seq<User>, id: Id): Option<User> {
    FindBy(users, (u: User) => u.id, id)
  }

  /** `ClientProfile.findOne({ userId })`. */
  function FindProfile(profiles: seq<ClientProfile>, userId: Id): Option<ClientProfile> {
    FindBy(profiles, (p: ClientProfile) => p.userId, userId)
  }

  /** `ChatRoom.findById`. */
  function FindRoom(rooms: seq<ChatRoom>, id: Id): Option<ChatRoom> {
    FindBy(rooms, (r: ChatRoom) => r.id, id)
  }

  /** `bookings.map(b => b.userId)`: the client of each booking. */
  function ClientIds(bs: seq<Booking>): (r: seq<Id>)
    ensures |r| == |bs| && forall i :: 0 <= i < |bs| ==> r[i] == bs[i].userId
  {
    seq(|bs|, i requires 0 <= i < |bs| => bs[i].userId)
  }

  /** The room is between a and b, in either slot order. */
  predicate Joins(room: ChatRoom, a: Id, b: Id) {
    (room.user1Id == a && room.user2Id == b) || (room.user1Id == b && room.user2Id == a)
  }

  /** The `$or` lookup of both slot orders: the first room between a and b. */
  function FindRoomForPair(rooms: seq<ChatRoom>, a: Id, b: Id): (r: Option<ChatRoom>)
    ensures r.Some? ==> r.value in rooms && Joins(r.value, a, b)
    ensures r.None? <==> forall i :: 0 <= i < |rooms| ==> !Joins(rooms[i], a, b)
  {
    if rooms == [] then None
    else if Joins(rooms[0], a, b) then Some(rooms[0])
    else FindRoomForPair(rooms[1..], a, b)
  }

  /** Which of the two users calls does not matter to the lookup. */
  lemma {:induction false} PairLookupSymmetric(rooms: seq<ChatRoom>, a: Id, b: Id)
    ensures FindRoomForPair(rooms, a, b) == FindRoomForPair(rooms, b, a)
  {
    if rooms != [] {
      PairLookupSymmetric(rooms[1..], a, b);
    }
  }

  /** At most one room per unordered pair of users. */
  predicate PairUnique(rooms: seq<ChatRoom>) {
    forall i, j :: 0 <= i < j < |rooms| ==> !Joins(rooms[j], rooms[i].user1Id, rooms[i].user2Id)
  }

  datatype Upserted = Upserted(rooms: seq<ChatRoom>, roomId: Id)

  /** `ChatRoom.findOneAndUpdate({$or: both orders}, {$setOnInsert: {user1Id:
      a, user2Id: b, createdAt}}, {upsert: true})`: an existing room between
      a and b is returned untouched; otherwise one room is added with a in
      user1 and b in user2 and no last message. */
  function UpsertRoom(rooms: seq<ChatRoom>, a: Id, b: Id, freshId: Id, now: Instant): (r: Upserted)
    ensures rooms <= r.rooms && |r.rooms| <= |rooms| + 1
    ensures exists k :: 0 <= k < |r.rooms| && r.rooms[k].id == r.roomId && Joins(r.rooms[k], a, b)
    ensures |r.rooms| == |rooms| + 1 <==> (forall i :: 0 <= i < |rooms| ==> !Joins(rooms[i], a, b))
    ensures |r.rooms| == |rooms| + 1 ==>
      r.rooms[|rooms|] == ChatRoom(freshId, a, b, None, None, now) && r.roomId == freshId
  {
    match FindRoomForPair(rooms, a, b)
    case Some(room) =>
      var k :| 0 <= k < |rooms| && rooms[k] == room;
      Upserted(rooms, room.id)
    case None =>
      var rs := rooms + [ChatRoom(freshId, a, b, None, None, now)];
      assert rs[|rooms|].id == freshId && Joins(rs[|rooms|], a, b);
      Upserted(rs, freshId)
  }

  /** The upsert never creates a second room for a pair. */
  lemma UpsertKeepsPairUnique(rooms: seq<ChatRoom>, a: Id, b: Id, freshId: Id, now: Instant)
    requires PairUnique(rooms)
    ensures PairUnique(UpsertRoom(rooms, a, b, freshId, now).rooms)
  {
    var r := UpsertRoom(rooms, a, b, freshId, now);
    if |r.rooms| == |rooms| + 1 {
      forall i, j | 0 <= i < j < |r.rooms|
        ensures !Joins(r.rooms[j], r.rooms[i].user1Id, r.rooms[i].user2Id)
      {
        if j == |rooms| {
          assert !Joins(rooms[i], a, b);
        } else {
          assert r.rooms[i] == rooms[i] && r.rooms[j] == rooms[j];
        }
      }
    }
  }

  /** Repeating the upsert for the same pair, in either order, changes
      nothing and returns the same room id. */
  lemma {:induction false} UpsertIdempotent(rooms: seq<ChatRoom>, a: Id, b: Id, id1: Id, id2: Id, t1: Instant, t2: Instant)
    ensures var first := UpsertRoom(rooms, a, b, id1, t1);
      UpsertRoom(first.rooms, a, b, id2, t2) == first
      && UpsertRoom(first.rooms, b, a, id2, t2) == first
  {
    var first := UpsertRoom(rooms, a, b, id1, t1);
    match FindRoomForPair(rooms, a, b)
    case Some(room) =>
      PairLookupSymmetric(rooms, a, b);
    case None =>
      FirstPairRoomAfterAppend(rooms, a, b, ChatRoom(id1, a, b, None, None, t1));
      PairLookupSymmetric(first.rooms, a, b);
  }

  lemma {:induction false} FirstPairRoomAfterAppend(rooms: seq<ChatRoom>, a: Id, b: Id, room: ChatRoom)
    requires FindRoomForPair(rooms, a, b).None? && Joins(room, a, b)
    ensures FindRoomForPair(rooms + [room], a, b) == Some(room)
  {
    if rooms == [] {
    } else {
      assert (rooms + [room])[1..] == rooms[1..] + [room];
      FirstPairRoomAfterAppend(rooms[1..], a, b, room);
    }
  }

  // ----- the store -----

  predicate BookingIdsFresh(bs: seq<Booking>, bound: Id) {
    (forall i :: 0 <= i < |bs| ==> bs[i].id < bound)
    && (forall i, j :: 0 <= i < j < |bs| ==> bs[i].id != bs[j].id)
  }

  predicate RoomIdsFresh(rs: seq<ChatRoom>, bound: Id) {
    (forall i :: 0 <= i < |rs| ==> rs[i].id < bound)
    && (forall i, j :: 0 <= i < j < |rs| ==> rs[i].id != rs[j].id)
  }

  predicate MessageIdsFresh(ms: seq<Message>, bound: Id) {
    (forall i :: 0 <= i < |ms| ==> ms[i].id < bound)
    && (forall i, j :: 0 <= i < j < |ms| ==> ms[i].id != ms[j].id)
  }

  predicate AppointmentIdsFresh(ap: seq<Appointment>, bound: Id) {
    (forall i :: 0 <= i < |ap| ==> ap[i].id < bound)
    && (forall i, j :: 0 <= i < j < |ap| ==> ap[i].id != ap[j].id)
  }

  /** Appending a booking under the next id keeps the ids fresh. */
  lemma AppendFreshBooking(bs: seq<Booking>, b: Booking, bound: Id)
    requires BookingIdsFresh(bs, bound) && b.id == bound
    ensures BookingIdsFresh(bs + [b], bound + 1)
  {
  }

  /** Upserting a room under the next id keeps the ids fresh. */
  lemma UpsertFreshRoom(rooms: seq<ChatRoom>, a: Id, b: Id, bound: Id, now: Instant)
    requires RoomIdsFresh(rooms, bound)
    ensures RoomIdsFresh(UpsertRoom(rooms, a, b, bound, now).rooms, bound + 1)
  {
  }

  /** Appending a message under the next id keeps the ids fresh. */
  lemma AppendFreshMessage(ms: seq<Message>, m: Message, bound: Id)
    requires MessageIdsFresh(ms, bound) && m.id == bound
    ensures MessageIdsFresh(ms + [m], bound + 1)
  {
  }

  /** Appending an appointment under the next id keeps the ids fresh. */
  lemma AppendFreshAppointment(ap: seq<Appointment>, a: Appointment, bound: Id)
    requires AppointmentIdsFresh(ap, bound) && a.id == bound
    ensures AppointmentIdsFresh(ap + [a], bound + 1)
  {
  }

  class Db {
    var users: seq<User>
    var counselors: seq<Counselor>
    var profiles: seq<ClientProfile>
    var bookings: seq<Booking>
    var rooms: seq<ChatRoom>
    var messages: seq<Message>
    var appointments: seq<Appointment>
    /** The next ObjectId the store hands out. */
    var nextId: Id

    /** Every `_id` is distinct within its collection and below nextId. */
    ghost predicate Valid()
      reads this
    {
      BookingIdsFresh(bookings, nextId)
      && RoomIdsFresh(rooms, nextId)
      && MessageIdsFresh(messages, nextId)
      && AppointmentIdsFresh(appointments, nextId)
    }

    constructor (users: seq<User>, counselors: seq<Counselor>, profiles: seq<ClientProfile>)
      ensures Valid()
      ensures this.users == users && this.counselors == counselors && this.profiles == profiles
      ensures bookings == [] && rooms == [] && messages == [] && appointments == []
    {
      this.users := users;
      this.counselors := counselors;
      this.profiles := profiles;
      bookings, rooms, messages, appointments := [], [], [], [];
      nextId := 0;
    }

    /** A new ObjectId, distinct from every id in use. */
    method NewId() returns (id: Id)
      requires Valid()
      modifies this`nextId
      ensures Valid()
      ensures id == old(nextId) && nextId == id + 1
    {
      id := nextId;
      nextId := nextId + 1;
    }

    /** `Booking.create`: the booking is stored under a fresh id. */
    method AddBooking(b: Booking) returns (stored: Booking)
      requires Valid()
      modifies this`bookings, this`nextId
      ensures Valid()
      ensures stored == b.(id := old(nextId)) && bookings == old(bookings) + [stored]
      ensures nextId == old(nextId) + 1
    {
      var id := NewId();
      stored := b.(id := id);
      AppendFreshBooking(bookings, stored, id);
      bookings := bookings + [stored];
    }

    /** The chat-room `findOne` for the pair, and `ChatRoom.create` under a
        fresh id when there is none. */
    method UpsertPairRoom(a: Id, b: Id, now: Instant) returns (roomId: Id)
      requires Valid()
      modifies this`rooms, this`nextId
      ensures Valid()
      ensures UpsertRoom(old(rooms), a, b, old(nextId), now) == Upserted(rooms, roomId)
      ensures nextId == old(nextId) + 1
    {
      var id := NewId();
      var up := UpsertRoom(rooms, a, b, id, now);
      UpsertFreshRoom(rooms, a, b, id, now);
      rooms := up.rooms;
      roomId := up.roomId;
    }
  }
}
