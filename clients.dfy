/** GET /api/clients (app/api/clients/route.ts): the counselor's clients,
    one entry per client with a scheduled or completed booking, each with a
    session count and the relative time of the last interaction. */
module Clients {
  import opened Wrappers
  import opened DateUtil
  import opened Collections
  import opened Store
  import opened RelativeTime

  /** `status: { $in: ["scheduled", "completed"] }` for this counselor. */
  predicate Engaged(counselorId: Id, b: Booking) {
    b.counselorId == counselorId && (b.status == "scheduled" || b.status == "completed")
  }

  /** `countDocuments({ counselorId, userId })`: any status. */
  predicate Between(counselorId: Id, clientId: Id, b: Booking) {
    b.counselorId == counselorId && b.userId == clientId
  }

  /** The last-message dates of the rooms between a and b that have one. */
  function RoomDates(rooms: seq<ChatRoom>, a: Id, b: Id): (r: seq<Instant>)
    ensures forall d :: d in r <==>
      exists i :: 0 <= i < |rooms| && Joins(rooms[i], a, b) && rooms[i].lastMessageDate == Some(d)
  {
    if rooms == [] then []
    else
      var rest := RoomDates(rooms[1..], a, b);
      assert forall i :: 1 <= i < |rooms| ==> rooms[i] == rooms[1..][i - 1];
      if Joins(rooms[0], a, b) && rooms[0].lastMessageDate.Some? then [rooms[0].lastMessageDate.value] + rest
      else rest
  }

  /** `ChatRoom.findOne({ $or: … }).sort({ lastMessageDate: -1 })
      ?.lastMessageDate`: the latest last-message date of a room between the
      two; a room without one sorts last, so the date is absent only when no
      such room has one. */
  function LastRoomDate(rooms: seq<ChatRoom>, a: Id, b: Id): (r: Option<Instant>)
    ensures r.None? <==> forall i :: 0 <= i < |rooms| && Joins(rooms[i], a, b) ==> rooms[i].lastMessageDate.None?
    ensures r.Some? ==> exists i :: 0 <= i < |rooms| && Joins(rooms[i], a, b) && rooms[i].lastMessageDate == r
    ensures r.Some? ==> forall i :: 0 <= i < |rooms| && Joins(rooms[i], a, b) && rooms[i].lastMessageDate.Some? ==>
      rooms[i].lastMessageDate.value <= r.value
  {
    var ds := RoomDates(rooms, a, b);
    forall i | 0 <= i < |rooms| && Joins(rooms[i], a, b) && rooms[i].lastMessageDate.Some?
      ensures rooms[i].lastMessageDate.value in ds
    {
    }
    Max(ds)
  }

  function BookingDates(bs: seq<Booking>): (r: seq<Instant>)
    ensures |r| == |bs| && forall i :: 0 <= i < |bs| ==> r[i] == bs[i].date
  {
    seq(|bs|, i requires 0 <= i < |bs| => bs[i].date)
  }

  /** The client's engaged bookings with the counselor. */
  predicate EngagedWith(counselorId: Id, clientId: Id, b: Booking) {
    Engaged(counselorId, b) && b.userId == clientId
  }

  /** `Booking.findOne({ …, status: $in }).sort({ date: -1 })?.date`: the
      latest date of an engaged booking with the client. */
  function LastBookingDate(bookings: seq<Booking>, counselorId: Id, clientId: Id): (r: Option<Instant>)
    ensures r.None? <==> forall i :: 0 <= i < |bookings| ==> !EngagedWith(counselorId, clientId, bookings[i])
    ensures r.Some? ==> exists i :: 0 <= i < |bookings| && EngagedWith(counselorId, clientId, bookings[i]) && bookings[i].date == r.value
    ensures r.Some? ==> forall i :: 0 <= i < |bookings| && EngagedWith(counselorId, clientId, bookings[i]) ==> bookings[i].date <= r.value
  {
    LatestOfFiltered(bookings, counselorId, clientId);
    Max(BookingDates(Filter(bookings, b => EngagedWith(counselorId, clientId, b))))
  }

  lemma LatestOfFiltered(bookings: seq<Booking>, counselorId: Id, clientId: Id)
    ensures var r := Max(BookingDates(Filter(bookings, b => EngagedWith(counselorId, clientId, b))));
      (r.None? <==> forall i :: 0 <= i < |bookings| ==> !EngagedWith(counselorId, clientId, bookings[i]))
      && (r.Some? ==> exists i :: 0 <= i < |bookings| && EngagedWith(counselorId, clientId, bookings[i]) && bookings[i].date == r.value)
      && (r.Some? ==> forall i :: 0 <= i < |bookings| && EngagedWith(counselorId, clientId, bookings[i]) ==> bookings[i].date <= r.value)
  {
    var theirs := Filter(bookings, b => EngagedWith(counselorId, clientId, b));
    var ds := BookingDates(theirs);
    var r := Max(ds);
    if r.Some? {
      var j :| 0 <= j < |ds| && ds[j] == r.value;
      assert theirs[j] in theirs;
      var k :| 0 <= k < |bookings| && bookings[k] == theirs[j];
    }
    forall i | 0 <= i < |bookings| && EngagedWith(counselorId, clientId, bookings[i])
      ensures r.Some? && bookings[i].date <= r.value
    {
      assert bookings[i] in theirs;
      var j :| 0 <= j < |theirs| && theirs[j] == bookings[i];
      assert ds[j] == bookings[i].date;
    }
  }

  /** `lastChatRoom?.lastMessageDate || lastBooking?.date`: a room date,
      when there is one, wins even over a later booking. */
  function LastInteraction(bookings: seq<Booking>, rooms: seq<ChatRoom>, counselorId: Id, clientId: Id): (r: Option<Instant>)
    ensures LastRoomDate(rooms, clientId, counselorId).Some? ==> r == LastRoomDate(rooms, clientId, counselorId)
    ensures LastRoomDate(rooms, clientId, counselorId).None? ==> r == LastBookingDate(bookings, counselorId, clientId)
  {
    var room := LastRoomDate(rooms, clientId, counselorId);
    if room.Some? then room else LastBookingDate(bookings, counselorId, clientId)
  }

  datatype ClientEntry = ClientEntry(
    id: Id,
    name: string,
    email: string,
    image: string,
    totalSessions: nat,
    lastInteraction: Option<TimeLabel>)

  /** The distinct client ids, `[...new Set(…)]`; the order is not part of
      the contract. */
  function ClientList(bookings: seq<Booking>, counselorId: Id): (r: seq<Id>)
    ensures NoDuplicates(r)
    ensures forall x :: x in r <==> exists i :: 0 <= i < |bookings| && Engaged(counselorId, bookings[i]) && bookings[i].userId == x
  {
    var engaged := Filter(bookings, b => Engaged(counselorId, b));
    var ids := ClientIds(engaged);
    var r := Distinct(ids);
    forall x | x in r
      ensures exists i :: 0 <= i < |bookings| && Engaged(counselorId, bookings[i]) && bookings[i].userId == x
    {
      var j :| 0 <= j < |ids| && ids[j] == x;
      assert engaged[j] in engaged;
      var k :| 0 <= k < |bookings| && bookings[k] == engaged[j];
    }
    forall i | 0 <= i < |bookings| && Engaged(counselorId, bookings[i]) ensures bookings[i].userId in r {
      assert bookings[i] in engaged;
      var j :| 0 <= j < |engaged| && engaged[j] == bookings[i];
      assert ids[j] == bookings[i].userId;
    }
    r
  }

  /** One client: the populated user's profile, every booking with the
      counselor in the count, and the relative time of the last interaction. */
  function Entry(users: seq<User>, bookings: seq<Booking>, rooms: seq<ChatRoom>, counselorId: Id, clientId: Id, now: Instant): (e: ClientEntry)
    requires FindUser(users, clientId).Some?
    ensures e.id == clientId
    ensures e.name == FindUser(users, clientId).value.name && e.email == FindUser(users, clientId).value.email
    ensures e.totalSessions == Count(bookings, b => Between(counselorId, clientId, b))
    ensures e.lastInteraction.None? <==> LastInteraction(bookings, rooms, counselorId, clientId).None?
    ensures e.lastInteraction.Some? ==>
      e.lastInteraction.value == FormatMessageTime(LastInteraction(bookings, rooms, counselorId, clientId).value, now)
  {
    var u := FindUser(users, clientId).value;
    var last := LastInteraction(bookings, rooms, counselorId, clientId);
    FilterCount(bookings, b => Between(counselorId, clientId, b));
    ClientEntry(clientId, u.name, u.email, u.image,
                |Filter(bookings, b => Between(counselorId, clientId, b))|,
                if last.Some? then Some(FormatMessageTime(last.value, now)) else None)
  }

  function Entries(users: seq<User>, bookings: seq<Booking>, rooms: seq<ChatRoom>, counselorId: Id, ids: seq<Id>, now: Instant): (r: seq<ClientEntry>)
    requires forall i :: 0 <= i < |ids| ==> FindUser(users, ids[i]).Some?
    ensures |r| == |ids|
    ensures forall i :: 0 <= i < |ids| ==> r[i] == Entry(users, bookings, rooms, counselorId, ids[i], now)
  {
    seq(|ids|, i requires 0 <= i < |ids| && FindUser(users, ids[i]).Some? => Entry(users, bookings, rooms, counselorId, ids[i], now))
  }

  /** Every engaged booking's client resolves to a user; otherwise
      `booking.userId._id` dereferences the null a failed populate leaves. */
  predicate AllPopulated(users: seq<User>, bookings: seq<Booking>, counselorId: Id) {
    forall i :: 0 <= i < |bookings| && Engaged(counselorId, bookings[i]) ==> FindUser(users, bookings[i].userId).Some?
  }

  /** The GET: 401 without `token.userId`, 500 when a client's user is gone,
      otherwise one entry per distinct client, in the client list's order. */
  function GetClients(users: seq<User>, bookings: seq<Booking>, rooms: seq<ChatRoom>, tokenUserId: Option<Id>, now: Instant): (r: Response<seq<ClientEntry>>)
    ensures tokenUserId.None? ==> r == Err(Unauthorized)
    ensures tokenUserId.Some? && !AllPopulated(users, bookings, tokenUserId.value) ==> r == Err(ServerError)
    ensures tokenUserId.Some? && AllPopulated(users, bookings, tokenUserId.value) ==> r.Ok?
    ensures r.Ok? ==>
      var ids := ClientList(bookings, tokenUserId.value);
      |r.body| == |ids| && forall i :: 0 <= i < |ids| ==>
        FindUser(users, ids[i]).Some? && r.body[i] == Entry(users, bookings, rooms, tokenUserId.value, ids[i], now)
  {
    if tokenUserId.None? then Err(Unauthorized)
    else
      var c := tokenUserId.value;
      if !AllPopulated(users, bookings, c) then Err(ServerError)
      else
        var ids := ClientList(bookings, c);
        forall i | 0 <= i < |ids| ensures FindUser(users, ids[i]).Some? {
          assert ids[i] in ids;
        }
        Ok(Entries(users, bookings, rooms, c, ids, now))
  }

  /** The entries carry the client list's ids, in its order. */
  lemma EntryIds(users: seq<User>, bookings: seq<Booking>, rooms: seq<ChatRoom>, c: Id, now: Instant)
    requires GetClients(users, bookings, rooms, Some(c), now).Ok?
    ensures var es := GetClients(users, bookings, rooms, Some(c), now).body;
      var ids := ClientList(bookings, c);
      |es| == |ids| && forall i :: 0 <= i < |es| ==> es[i].id == ids[i]
  {
    var es := GetClients(users, bookings, rooms, Some(c), now).body;
    var ids := ClientList(bookings, c);
    forall i | 0 <= i < |es| ensures es[i].id == ids[i] {
      assert es[i] == Entry(users, bookings, rooms, c, ids[i], now);
    }
  }

  /** Each client appears once. */
  lemma ListedOnce(users: seq<User>, bookings: seq<Booking>, rooms: seq<ChatRoom>, c: Id, now: Instant)
    requires GetClients(users, bookings, rooms, Some(c), now).Ok?
    ensures var es := GetClients(users, bookings, rooms, Some(c), now).body;
      forall i, j :: 0 <= i < j < |es| ==> es[i].id != es[j].id
  {
    EntryIds(users, bookings, rooms, c, now);
  }

  /** Exactly the clients with a scheduled or completed booking appear. */
  lemma ListedExactly(users: seq<User>, bookings: seq<Booking>, rooms: seq<ChatRoom>, c: Id, now: Instant, x: Id)
    requires GetClients(users, bookings, rooms, Some(c), now).Ok?
    ensures var es := GetClients(users, bookings, rooms, Some(c), now).body;
      (exists i :: 0 <= i < |es| && es[i].id == x) <==>
        exists k :: 0 <= k < |bookings| && Engaged(c, bookings[k]) && bookings[k].userId == x
  {
    var es := GetClients(users, bookings, rooms, Some(c), now).body;
    var ids := ClientList(bookings, c);
    EntryIds(users, bookings, rooms, c, now);
    if exists i :: 0 <= i < |es| && es[i].id == x {
      var i :| 0 <= i < |es| && es[i].id == x;
      assert ids[i] in ids;
    }
    if exists k :: 0 <= k < |bookings| && Engaged(c, bookings[k]) && bookings[k].userId == x {
      assert x in ids;
      var i :| 0 <= i < |ids| && ids[i] == x;
      assert es[i].id == x;
    }
  }

  /** A listed client always has a last interaction, and at least one
      session: the engaged booking that listed them. */
  lemma EveryEntryHasInteraction(users: seq<User>, bookings: seq<Booking>, rooms: seq<ChatRoom>, c: Id, now: Instant, i: nat)
    requires GetClients(users, bookings, rooms, Some(c), now).Ok?
    requires i < |GetClients(users, bookings, rooms, Some(c), now).body|
    ensures var e := GetClients(users, bookings, rooms, Some(c), now).body[i];
      e.lastInteraction.Some? && e.totalSessions >= 1
  {
    var ids := ClientList(bookings, c);
    var x := ids[i];
    assert x in ids;
    var k :| 0 <= k < |bookings| && Engaged(c, bookings[k]) && bookings[k].userId == x;
    assert LastBookingDate(bookings, c, x).Some?;
    assert Between(c, x, bookings[k]);
  }

  /** The count includes cancelled bookings, which do not list a client. */
  lemma CancelledSessionsCount(users: seq<User>, bookings: seq<Booking>, rooms: seq<ChatRoom>, c: Id, x: Id, now: Instant)
    requires FindUser(users, x).Some?
    requires forall k :: 0 <= k < |bookings| ==> Between(c, x, bookings[k]) && bookings[k].status == "cancelled"
    ensures Entry(users, bookings, rooms, c, x, now).totalSessions == |bookings|
  {
    FilterAll(bookings, b => Between(c, x, b));
  }

  /** Clients whose bookings are all cancelled are not listed. */
  lemma CancelledNotListed(users: seq<User>, bookings: seq<Booking>, rooms: seq<ChatRoom>, c: Id, now: Instant)
    requires forall k :: 0 <= k < |bookings| ==> bookings[k].status == "cancelled"
    ensures GetClients(users, bookings, rooms, Some(c), now) == Ok([])
  {
    assert AllPopulated(users, bookings, c);
    assert ClientList(bookings, c) == [];
  }
}
